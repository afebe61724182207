/** The parts of Go's `strings.Split` and `strconv.Atoi` that the peer
    server's port parsing depends on, on byte strings (64-bit `int`). */
module Strconv {
  import opened Wire

  const Colon: byte := 58
  const Plus: byte := 43
  const Minus: byte := 45
  const Zero: byte := 48

  const MinInt64: int := -0x8000_0000_0000_0000
  const MaxInt64: int := 0x7FFF_FFFF_FFFF_FFFF

  /** strings.Join: the fields with one separator between neighbours. */
  function Join(fields: seq<Bytes>, sep: byte): Bytes {
    if |fields| == 0 then []
    else if |fields| == 1 then fields[0]
    else fields[0] + [sep] + Join(fields[1..], sep)
  }

  /** strings.Split with a one-byte separator: the pieces of `s` between
      separators, so that joining them back gives `s`; there is always at
      least one piece, and exactly one when `sep` does not occur. */
  function Split(s: Bytes, sep: byte): (fields: seq<Bytes>)
    ensures |fields| >= 1
    ensures Join(fields, sep) == s
    ensures forall i :: 0 <= i < |fields| ==> sep !in fields[i]
    ensures |fields| == 1 <==> sep !in s
  {
    if s == [] then [[]]
    else
      var rest := Split(s[1..], sep);
      if s[0] == sep then
        assert s == [sep] + s[1..];
        [[]] + rest
      else
        JoinExtendHead(s[0], rest, sep);
        assert s == [s[0]] + s[1..];
        [[s[0]] + rest[0]] + rest[1..]
  }

  /** Putting a byte in front of the first field puts it in front of the join. */
  lemma JoinExtendHead(b: byte, fields: seq<Bytes>, sep: byte)
    requires |fields| >= 1
    ensures Join([[b] + fields[0]] + fields[1..], sep) == [b] + Join(fields, sep)
  {
    var extended := [[b] + fields[0]] + fields[1..];
    assert extended[1..] == fields[1..];
  }

  /** Splitting at a first separator peels off the text before it. */
  lemma {:induction false} SplitAfterFirst(head: Bytes, tail: Bytes, sep: byte)
    requires sep !in head
    ensures Split(head + [sep] + tail, sep) == [head] + Split(tail, sep)
  {
    var s := head + [sep] + tail;
    if head == [] {
      assert s[1..] == tail;
    } else {
      assert s[1..] == head[1..] + [sep] + tail;
      SplitAfterFirst(head[1..], tail, sep);
      assert [head[0]] + head[1..] == head;
    }
  }

  predicate IsDigit(b: byte) {
    Zero <= b <= Zero + 9
  }

  predicate AllDigits(s: Bytes) {
    forall i :: 0 <= i < |s| ==> IsDigit(s[i])
  }

  /** The number a string of decimal digits denotes. */
  function Value(digits: Bytes): nat
    requires AllDigits(digits)
  {
    if digits == [] then 0
    else Value(digits[..|digits| - 1]) * 10 + (digits[|digits| - 1] - Zero) as int
  }

  /** The decimal digits of `n`, as strconv.Itoa writes them. */
  function Decimal(n: nat): (digits: Bytes)
    ensures digits != [] && AllDigits(digits)
    ensures Value(digits) == n
  {
    if n < 10 then [Zero + n as byte]
    else
      var digits := Decimal(n / 10) + [Zero + (n % 10) as byte];
      assert digits[..|digits| - 1] == Decimal(n / 10);
      digits
  }

  /** strconv.Atoi on a 64-bit platform: an optional sign, then one or more
      decimal digits, denoting a value in the range of int64; anything else is
      an error (None). */
  function Atoi(s: Bytes): (n: Option<int>)
    ensures n.Some? ==> MinInt64 <= n.value <= MaxInt64
    ensures s == [] ==> n.None?
    ensures s != [] && AllDigits(s) && Value(s) <= MaxInt64 ==> n == Some(Value(s))
    ensures s != [] && !IsDigit(s[0]) && s[0] != Plus && s[0] != Minus ==> n.None?
    // A success is an optional sign followed by one or more digits.
    ensures n.Some? ==> exists d :: d != [] && AllDigits(d) && (s == d || s == [Plus] + d || s == [Minus] + d)
    // A signed digit string denotes its signed value, when in range.
    ensures |s| > 1 && s[0] == Minus && AllDigits(s[1..]) && Value(s[1..]) <= MaxInt64 + 1 ==>
      n == Some(-(Value(s[1..]) as int))
    ensures |s| > 1 && s[0] == Plus && AllDigits(s[1..]) && Value(s[1..]) <= MaxInt64 ==>
      n == Some(Value(s[1..]))
    // Out of range is an error.
    ensures AllDigits(s) && Value(s) > MaxInt64 ==> n.None?
    ensures |s| > 1 && s[0] == Plus && AllDigits(s[1..]) && Value(s[1..]) > MaxInt64 ==> n.None?
    ensures |s| > 1 && s[0] == Minus && AllDigits(s[1..]) && Value(s[1..]) > MaxInt64 + 1 ==> n.None?
  {
    var signed := |s| > 0 && (s[0] == Plus || s[0] == Minus);
    var digits := if signed then s[1..] else s;
    if digits == [] || !AllDigits(digits) then None
    else
      var v: int := if signed && s[0] == Minus then -(Value(digits) as int) else Value(digits);
      if MinInt64 <= v <= MaxInt64 then Some(v) else None
  }
}
