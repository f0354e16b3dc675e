/** The term pointer and the wake channel of a consumer (mq/redismq/consumer.go). */
module Terms {
  import opened Basics

  type TermId = nat
  type Wake = nat

  // wake: the channel handed out now; closed: the channels closed so far.
  datatype Cell = Cell(term: Option<TermId>, wake: Wake, closed: set<Wake>)

  const START := Cell(None, 0, {})

  function Signal(c: Cell): Cell {
    c.(wake := c.wake + 1, closed := c.closed + {c.wake})
  }

  function Begin(c: Cell, t: TermId): Cell {
    Signal(c.(term := Some(t)))
  }

  function End(c: Cell, t: TermId): Cell {
    if c.term == Some(t) then Signal(c.(term := None)) else c
  }

  // Channels are numbered in creation order: exactly the earlier ones are closed, so
  // signalling never closes a closed channel.
  ghost predicate CellOk(c: Cell) {
    forall w: Wake :: w in c.closed <==> w < c.wake
  }

  // A pair obtained from currentTerm is up to date, or its channel is closed.
  ghost predicate Informed(c: Cell, t: Option<TermId>, w: Wake) {
    (t == c.term && w == c.wake) || w in c.closed
  }

  datatype Event = Begins(t: TermId) | Ends(t: TermId)

  function Run(c: Cell, events: seq<Event>): Cell {
    if events == [] then c
    else
      var c' := Run(c, events[..|events| - 1]);
      match events[|events| - 1]
      case Begins(t) => Begin(c', t)
      case Ends(t) => End(c', t)
  }

  // No lost wakeup: whatever terms begin and end after a subscriber took its pair, the
  // pair is still current or its channel has been closed; closed channels stay closed.
  lemma {:induction false} NoLostWakeup(c: Cell, events: seq<Event>)
    requires CellOk(c)
    ensures CellOk(Run(c, events))
    ensures c.closed <= Run(c, events).closed
    ensures Informed(Run(c, events), c.term, c.wake)
  {
    if events != [] {
      NoLostWakeup(c, events[..|events| - 1]);
    }
  }

  // A late endTerm never clears a newer term, and a term that is not current becomes
  // current again only by beginning.
  lemma {:induction false} StaleStaysStale(c: Cell, events: seq<Event>, t: TermId)
    requires c.term != Some(t)
    requires Begins(t) !in events
    ensures Run(c, events).term != Some(t)
    ensures (forall e :: e in events ==> e == Ends(t)) ==> Run(c, events) == c
  {
    if events != [] {
      var front := events[..|events| - 1];
      assert forall e :: e in front ==> e in events;
      StaleStaysStale(c, front, t);
      assert events[|events| - 1] in events;
    }
  }
}

module TermSwitch {
  import opened Basics
  import opened Terms

  // c.mu protects the two fields; closed records the channels closed so far.
  class Switch {
    var term: Option<TermId>
    var wake: Wake
    ghost var closed: set<Wake>

    ghost function State(): Cell
      reads this
    {
      Cell(term, wake, closed)
    }

    ghost predicate Valid()
      reads this
    {
      CellOk(State())
    }

    constructor ()
      ensures Valid() && State() == START
    {
      term, wake, closed := None, 0, {};
    }

    // close(wakeCh) panics on a closed channel, so it must still be open.
    method SignalLocked()
      requires Valid()
      modifies this
      ensures Valid() && State() == Signal(old(State()))
      ensures old(wake) !in old(closed)
    {
      closed := closed + {wake};
      wake := wake + 1;
    }

    method BeginTerm(t: TermId)
      requires Valid()
      modifies this
      ensures Valid() && State() == Begin(old(State()), t)
    {
      term := Some(t);
      SignalLocked();
    }

    method EndTerm(t: TermId)
      requires Valid()
      modifies this
      ensures Valid() && State() == End(old(State()), t)
    {
      if term == Some(t) {
        term := None;
        SignalLocked();
      }
    }

    method CurrentTerm() returns (t: Option<TermId>, w: Wake)
      requires Valid()
      ensures Informed(State(), t, w) && w !in closed
    {
      return term, wake;
    }

    method IsCurrentTerm(t: TermId) returns (current: bool)
      ensures current <==> term == Some(t)
    {
      return term == Some(t);
    }
  }
}
