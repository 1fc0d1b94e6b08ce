/** The part of Go's strings, strconv and fmt packages that the parsers rest on, for one-character separators. */
module Strings {
  import opened Wrappers

  predicate HasPrefix(s: string, p: string) { p <= s }

  /** strings.Split(s, c): the pieces between the separators, at least one. */
  function Split(s: string, c: char): (parts: seq<string>)
    ensures parts != []
  {
    if s == [] then [[]]
    else
      var rest := Split(s[1..], c);
      if s[0] == c then [[]] + rest else [[s[0]] + rest[0]] + rest[1..]
  }

  /** strings.Join(parts, c). */
  function Join(parts: seq<string>, c: char): string {
    if parts == [] then []
    else if |parts| == 1 then parts[0]
    else parts[0] + [c] + Join(parts[1..], c)
  }

  function Count(s: string, c: char): nat {
    if s == [] then 0 else (if s[0] == c then 1 else 0) + Count(s[1..], c)
  }

  function CountAll(parts: seq<string>, c: char): nat {
    if parts == [] then 0 else Count(parts[0], c) + CountAll(parts[1..], c)
  }

  lemma {:induction false} CountZero(s: string, c: char)
    ensures Count(s, c) == 0 <==> c !in s
  {
    if s != [] {
      CountZero(s[1..], c);
      assert s == [s[0]] + s[1..];
    }
  }

  lemma {:induction false} CountAllZero(parts: seq<string>, c: char)
    ensures CountAll(parts, c) == 0 <==> forall p | p in parts :: c !in p
  {
    if parts != [] {
      CountZero(parts[0], c);
      CountAllZero(parts[1..], c);
      assert parts == [parts[0]] + parts[1..];
    }
  }

  lemma {:induction false} CountConcat(s: string, t: string, c: char)
    ensures Count(s + t, c) == Count(s, c) + Count(t, c)
  {
    if s == [] {
      assert s + t == t;
    } else {
      assert (s + t)[1..] == s[1..] + t;
      CountConcat(s[1..], t, c);
    }
  }

  /** A separator at the seam splits the pieces of the two sides. */
  lemma {:induction false} SplitConcat(s: string, c: char, t: string)
    ensures Split(s + [c] + t, c) == Split(s, c) + Split(t, c)
  {
    if s == [] {
      assert s + [c] + t == [c] + t;
      assert ([c] + t)[1..] == t;
    } else {
      assert (s + [c] + t)[1..] == s[1..] + [c] + t;
      SplitConcat(s[1..], c, t);
    }
  }

  lemma {:induction false} SplitWithout(s: string, c: char)
    ensures Split(s, c) == [s] <==> c !in s
  {
    if s != [] {
      SplitWithout(s[1..], c);
      assert s == [s[0]] + s[1..];
      SplitLength(s[1..], c);
      CountZero(s[1..], c);
    }
  }

  lemma {:induction false} SplitLength(s: string, c: char)
    ensures |Split(s, c)| == 1 + Count(s, c)
  {
    if s != [] { SplitLength(s[1..], c); }
  }

  /** Splitting loses nothing. */
  lemma {:induction false} JoinOfSplit(s: string, c: char)
    ensures Join(Split(s, c), c) == s
  {
    if s != [] {
      var rest := Split(s[1..], c);
      JoinOfSplit(s[1..], c);
      if s[0] == c {
        assert ([[]] + rest)[1..] == rest;
      } else {
        var parts := [[s[0]] + rest[0]] + rest[1..];
        if |rest| > 1 { assert parts[1..] == rest[1..]; }
        assert Join(parts, c) == [s[0]] + Join(rest, c);
      }
    }
  }

  lemma {:induction false} JoinCount(parts: seq<string>, c: char)
    requires parts != []
    ensures Count(Join(parts, c), c) == CountAll(parts, c) + |parts| - 1
  {
    if |parts| == 1 {
      assert CountAll(parts[1..], c) == 0;
    } else {
      CountConcat(parts[0] + [c], Join(parts[1..], c), c);
      CountConcat(parts[0], [c], c);
      assert Count([c], c) == 1 + Count([c][1..], c);
      JoinCount(parts[1..], c);
    }
  }

  /** Splitting what was joined gives back the parts exactly when none of them holds the separator,
      and otherwise too many pieces. */
  lemma {:induction false} SplitOfJoin(parts: seq<string>, c: char)
    requires parts != []
    ensures (forall p | p in parts :: c !in p) ==> Split(Join(parts, c), c) == parts
    ensures |Split(Join(parts, c), c)| == |parts| <==> forall p | p in parts :: c !in p
  {
    JoinCount(parts, c);
    SplitLength(Join(parts, c), c);
    CountAllZero(parts, c);
    if forall p | p in parts :: c !in p {
      assert parts[0] in parts;
      SplitWithout(parts[0], c);
      if |parts| > 1 {
        SplitConcat(parts[0], c, Join(parts[1..], c));
        assert forall p | p in parts[1..] :: p in parts;
        SplitOfJoin(parts[1..], c);
        assert parts == [parts[0]] + parts[1..];
      }
    }
  }

  // ---------- Decimal numbers ----------

  predicate IsDigit(c: char) { '0' <= c <= '9' }

  function DigitOf(n: nat): char
    requires n < 10
  {
    '0' + (n as char)
  }

  function ValueOf(c: char): nat
    requires IsDigit(c)
  {
    (c - '0') as nat
  }

  /** %d and strconv.Itoa of a natural number. */
  function Itoa(n: nat): string {
    if n < 10 then [DigitOf(n)] else Itoa(n / 10) + [DigitOf(n % 10)]
  }

  predicate AllDigits(s: string) { forall i | 0 <= i < |s| :: IsDigit(s[i]) }

  function Value(s: string): nat
    requires AllDigits(s)
  {
    if s == [] then 0 else 10 * Value(s[..|s| - 1]) + ValueOf(s[|s| - 1])
  }

  const TWO_TO_THE_32 := 0x1_0000_0000

  /** strconv.ParseUint(s, 10, 32): decimal digits only, at least one, and no more than 32 bits. */
  function ParseUint32(s: string): Result<nat> {
    if s == [] || !AllDigits(s) then Err
    else if Value(s) >= TWO_TO_THE_32 then Err
    else Ok(Value(s))
  }

  lemma {:induction false} ItoaValue(n: nat)
    ensures Itoa(n) != [] && AllDigits(Itoa(n)) && Value(Itoa(n)) == n
    decreases n
  {
    if n < 10 {
      assert Itoa(n)[..0] == [];
    } else {
      ItoaValue(n / 10);
      assert Itoa(n)[..|Itoa(n)| - 1] == Itoa(n / 10);
    }
  }

  /** Reading back a printed number gives it back, and succeeds exactly when it fits in 32 bits. */
  lemma ParseOfItoa(n: nat)
    ensures ParseUint32(Itoa(n)) == if n < TWO_TO_THE_32 then Ok(n) else Err
  {
    ItoaValue(n);
  }

  /** Numbers are printed in decimal: one digit, or the digits of a tenth and one more. */
  lemma ItoaDecimal(n: nat, d: nat)
    requires d < 10
    ensures Itoa(d) == ["0123456789"[d]]
    ensures n > 0 ==> Itoa(10 * n + d) == Itoa(n) + ["0123456789"[d]]
  {
    assert (10 * n + d) / 10 == n && (10 * n + d) % 10 == d;
  }

  lemma ItoaInjective(m: nat, n: nat)
    requires Itoa(m) == Itoa(n)
    ensures m == n
  {
    ItoaValue(m);
    ItoaValue(n);
  }

  lemma ItoaHasNo(n: nat, c: char)
    requires !IsDigit(c)
    ensures c !in Itoa(n)
  {
    ItoaValue(n);
  }
}
