/** Values shared by the component models. */
module Common {

  datatype Option<+T> = None | Some(value: T) {
    function GetOr(default: T): T {
      match this
      case Some(v) => v
      case None => default
    }
  }

  function Max(a: int, b: int): int { if a < b then b else a }

  // ---- sequences ----

  /** The sequence without its element at `i`. */
  function Remove<T>(s: seq<T>, i: nat): (r: seq<T>)
    requires i < |s|
    ensures |r| == |s| - 1
  {
    s[..i] + s[i + 1..]
  }

  function Repeat<T>(x: T, n: nat): seq<T> {
    if n == 0 then [] else [x] + Repeat(x, n - 1)
  }

  lemma {:induction false} RepeatMore<T>(x: T, n: nat)
    ensures Repeat(x, n) + [x] == Repeat(x, n + 1) && |Repeat(x, n)| == n
  {
    if n > 0 {
      RepeatMore(x, n - 1);
      assert Repeat(x, n) + [x] == [x] + (Repeat(x, n - 1) + [x]);
    }
  }

  ghost predicate Distinct<T(!new)>(s: seq<T>) {
    forall i, j :: 0 <= i < j < |s| ==> s[i] != s[j]
  }

  lemma Associative<T>(a: seq<T>, b: seq<T>, c: seq<T>)
    ensures (a + b) + c == a + (b + c)
  {
  }

  // ---- products ----

  lemma OneMore(x: int, each: int)
    ensures (x + 1) * each == x * each + each
    ensures (x - 1) * each == x * each - each
  {
  }

  lemma Distribute(a: int, b: int, each: int)
    ensures (a + b) * each == a * each + b * each
  {
  }

  lemma Monotone(a: int, b: int, each: int)
    requires a <= b && each >= 0
    ensures a * each <= b * each
  {
  }
}

/** Decimal text of integers, as `str(n)` and `%d` print them. */
module Decimals {

  const DIGITS := "0123456789"

  predicate IsDigit(c: char) { '0' <= c <= '9' }

  function NatText(n: nat): (s: string)
    ensures s != [] && forall i :: 0 <= i < |s| ==> IsDigit(s[i])
  {
    if n < 10 then [DIGITS[n]] else NatText(n / 10) + [DIGITS[n % 10]]
  }

  function Text(n: int): string {
    if n < 0 then "-" + NatText(-n) else NatText(n)
  }

  /** What a reader of decimal digits understands, e.g. an HTTP peer reading Content-Length. */
  function ParseNat(s: string): nat
    requires forall i :: 0 <= i < |s| ==> IsDigit(s[i])
  {
    if s == [] then 0
    else
      var last := s[|s| - 1];
      assert IsDigit(last);
      10 * ParseNat(s[..|s| - 1]) + (last as int - '0' as int)
  }

  lemma {:induction false} ParseNatText(n: nat)
    ensures ParseNat(NatText(n)) == n
  {
    if n < 10 {
      assert NatText(n)[..0] == [];
    } else {
      ParseNatText(n / 10);
      assert NatText(n)[..|NatText(n)| - 1] == NatText(n / 10);
    }
  }

  lemma TextInjective(m: int, n: int)
    requires Text(m) == Text(n)
    ensures m == n
  {
    if m < 0 {
      assert Text(m)[0] == '-';
      assert NatText(-m) == Text(m)[1..];
    }
    if n < 0 {
      assert Text(n)[0] == '-';
      assert NatText(-n) == Text(n)[1..];
    }
    assert (m < 0) == (n < 0);
    ParseNatText(if m < 0 then -m else m);
    ParseNatText(if n < 0 then -n else n);
  }
}
