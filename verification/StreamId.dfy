/** Entry ids as text: what parseID and compareID make of "<ms>-<seq>" (mq/redismq/message.go). */
module StreamId {
  const MAX_INT64: nat := 0x7FFF_FFFF_FFFF_FFFF
  const MAX_UINT64: nat := 0xFFFF_FFFF_FFFF_FFFF

  datatype Parsed = Value(n: nat) | TooBig | Malformed

  predicate IsDigit(c: char) {
    '0' <= c <= '9'
  }

  // The digit loop of strconv.ParseUint in base 10; n is the value read so far.
  function Digits(s: string, n: nat): Parsed {
    if s == "" then Value(n)
    else if !IsDigit(s[0]) then Malformed
    else
      var m := 10 * n + (s[0] - '0') as nat;
      if m > MAX_UINT64 then TooBig else Digits(s[1..], m)
  }

  // strconv.ParseInt(s, 10, 64) with the error dropped: 0 for malformed text, the nearest
  // int64 for a value out of range.
  function ParseInt(s: string): (v: int) {
    var negative := s != "" && s[0] == '-';
    var body := if s != "" && (s[0] == '-' || s[0] == '+') then s[1..] else s;
    if body == "" then 0
    else match Digits(body, 0)
      case Malformed => 0 as int
      case TooBig => if negative then -(MAX_INT64 + 1) else MAX_INT64
      case Value(n) =>
        if negative then (if n > MAX_INT64 + 1 then -(MAX_INT64 + 1) else 0 - n)
        else Clamp(n)
  }

  function Clamp(n: nat): nat {
    if n > MAX_INT64 then MAX_INT64 else n
  }

  // strings.IndexByte(s, '-')
  function IndexOfDash(s: string): (i: int)
    ensures -1 <= i < |s|
    ensures i >= 0 ==> s[i] == '-' && '-' !in s[..i]
    ensures i < 0 ==> '-' !in s
  {
    if s == "" then -1
    else if s[0] == '-' then 0
    else
      var i := IndexOfDash(s[1..]);
      if i < 0 then -1 else 1 + i
  }

  function ParseId(id: string): (int, int) {
    if id == "" then (-1, -1)
    else
      var dash := IndexOfDash(id);
      if dash < 0 then (ParseInt(id), 0)
      else (ParseInt(id[..dash]), ParseInt(id[dash + 1..]))
  }

  function CompareId(a: string, b: string): int {
    var (am, as_) := ParseId(a);
    var (bm, bs) := ParseId(b);
    if am != bm then (if am < bm then -1 else 1)
    else if as_ != bs then (if as_ < bs then -1 else 1)
    else 0
  }

  // An id as Redis generates it: two unsigned 64-bit parts, printed in decimal.
  datatype Entry = Entry(ms: nat, num: nat)

  predicate Fits(e: Entry) {
    e.ms <= MAX_UINT64 && e.num <= MAX_UINT64
  }

  function Rank(e: Entry): nat {
    e.ms * 0x1_0000_0000_0000_0000 + e.num
  }

  function Order(x: int, y: int): int {
    if x < y then -1 else if x > y then 1 else 0
  }

  function Decimal(n: nat): (s: string)
    ensures s != "" && forall c :: c in s ==> IsDigit(c)
  {
    if n < 10 then ['0' + n as char] else Decimal(n / 10) + ['0' + (n % 10) as char]
  }

  function Text(e: Entry): string {
    Decimal(e.ms) + "-" + Decimal(e.num)
  }

  lemma {:induction false} DigitsAppend(a: string, c: char, n: nat)
    requires IsDigit(c)
    ensures Digits(a + [c], n) == match Digits(a, n)
                                  case Value(m) => if 10 * m + (c - '0') as nat > MAX_UINT64 then TooBig else Value(10 * m + (c - '0') as nat)
                                  case other => other
  {
    if a == "" {
      assert (a + [c])[1..] == "";
    } else {
      assert (a + [c])[1..] == a[1..] + [c];
      if IsDigit(a[0]) && 10 * n + (a[0] - '0') as nat <= MAX_UINT64 {
        DigitsAppend(a[1..], c, 10 * n + (a[0] - '0') as nat);
      }
    }
  }

  lemma {:induction false} DigitsOfDecimal(n: nat)
    requires n <= MAX_UINT64
    ensures Digits(Decimal(n), 0) == Value(n)
  {
    if n < 10 {
      var s := Decimal(n);
      assert s[1..] == "";
    } else {
      DigitsOfDecimal(n / 10);
      DigitsAppend(Decimal(n / 10), '0' + (n % 10) as char, 0);
    }
  }

  lemma ParseDecimal(n: nat)
    requires n <= MAX_UINT64
    ensures ParseInt(Decimal(n)) == Clamp(n)
  {
    DigitsOfDecimal(n);
    assert Decimal(n)[0] in Decimal(n);
  }

  lemma {:induction false} DashAfter(m: string, s: string)
    requires '-' !in m
    ensures IndexOfDash(m + "-" + s) == |m|
  {
    if m != "" {
      assert (m + "-" + s)[1..] == m[1..] + "-" + s;
      DashAfter(m[1..], s);
    }
  }

  // parseID inverts the printing of an id, up to the clamping of parts beyond int64.
  lemma ParseText(e: Entry)
    requires Fits(e)
    ensures ParseId(Text(e)) == (Clamp(e.ms), Clamp(e.num))
  {
    var m, s := Decimal(e.ms), Decimal(e.num);
    var t := Text(e);
    assert '-' !in m;
    DashAfter(m, s);
    assert t[..|m|] == m && t[|m| + 1..] == s;
    ParseDecimal(e.ms);
    ParseDecimal(e.num);
  }

  lemma CompareText(x: Entry, y: Entry)
    requires Fits(x) && Fits(y)
    ensures CompareId(Text(x), Text(y)) ==
            if Clamp(x.ms) != Clamp(y.ms) then Order(Clamp(x.ms), Clamp(y.ms)) else Order(Clamp(x.num), Clamp(y.num))
  {
    ParseText(x);
    ParseText(y);
  }

  // compareID agrees with the order in which Redis generates ids for every other id if
  // and only if both parts lie strictly below the largest int64; the rank used as the id
  // in the other modules is this order.
  lemma CompareIsOrderIff(x: Entry)
    requires Fits(x)
    ensures x.ms < MAX_INT64 && x.num < MAX_INT64
       <==> forall y :: Fits(y) ==> CompareId(Text(x), Text(y)) == Order(Rank(x), Rank(y))
  {
    forall y | Fits(y)
      ensures x.ms < MAX_INT64 && x.num < MAX_INT64 ==> CompareId(Text(x), Text(y)) == Order(Rank(x), Rank(y))
    {
      CompareText(x, y);
    }
    if x.ms >= MAX_INT64 || x.num >= MAX_INT64 {
      Confused(x);
    }
  }

  // A different id that compareID takes for x.
  lemma Confused(x: Entry)
    requires Fits(x) && (x.ms >= MAX_INT64 || x.num >= MAX_INT64)
    ensures exists y :: Fits(y) && CompareId(Text(x), Text(y)) == 0 != Order(Rank(x), Rank(y))
  {
    var y := if x.ms >= MAX_INT64 then Entry(if x.ms == MAX_INT64 then x.ms + 1 else MAX_INT64, x.num)
             else Entry(x.ms, if x.num == MAX_INT64 then x.num + 1 else MAX_INT64);
    CompareText(x, y);
    assert Fits(y) && CompareId(Text(x), Text(y)) == 0 != Order(Rank(x), Rank(y));
  }

  // The empty id, the watermark before any mark, sorts below every entry id.
  lemma EmptyIsLowest(x: Entry)
    requires Fits(x)
    ensures CompareId("", Text(x)) == -1 && CompareId(Text(x), "") == 1
  {
    ParseText(x);
  }
}
