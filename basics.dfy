/** Small building blocks shared by both implementations of the game:
    optional values, error results, the C# semantics of integer division,
    the range of System.Random.Next, ASCII lower-casing, decimal rendering
    and List.Remove. */
module Basics {

  datatype Option<T> = None | Some(value: T)

  datatype Result<T, E> = Ok(value: T) | Err(error: E)

  function Min(a: int, b: int): int { if a <= b then a else b }

  function Max(a: int, b: int): int { if a >= b then a else b }

  /** C#'s `/` on int: the quotient is truncated toward zero, so the
      remainder a - q * b has the sign of the dividend and is smaller than the
      divisor in magnitude. */
  function CsDiv(a: int, b: int): (q: int)
    requires b != 0
    ensures b > 0 ==> (a >= 0 ==> 0 <= a - q * b < b) && (a < 0 ==> -b < a - q * b <= 0)
    ensures b < 0 ==> (a >= 0 ==> 0 <= a - q * b < -b) && (a < 0 ==> b < a - q * b <= 0)
  {
    var m := (if a >= 0 then a else -a) / (if b > 0 then b else -b);
    if (a >= 0) == (b > 0) then m else -m
  }

  /** On a non-negative dividend and a positive divisor, C#'s division is
      Dafny's. */
  lemma CsDivAgrees(a: int, b: int)
    requires a >= 0 && b > 0
    ensures CsDiv(a, b) == a / b
  {
  }

  /** Truncation toward zero is symmetric: negating the dividend or the
      divisor negates the quotient. */
  lemma CsDivOdd(a: int, b: int)
    requires b != 0
    ensures CsDiv(-a, b) == -CsDiv(a, b)
    ensures CsDiv(a, -b) == -CsDiv(a, b)
  {
    var ma, mb := if a >= 0 then a else -a, if b > 0 then b else -b;
    assert (if -a >= 0 then -a else a) == ma;
    assert (if -b > 0 then -b else b) == mb;
    if a == 0 {
      assert ma / mb == 0;
    }
  }

  /** `random.Next(lo, hi)` returns a value in [lo, hi), or lo itself when hi == lo.
      (It throws when hi < lo; callers in this model never get there.) */
  predicate Drawn(n: int, lo: int, hi: int)
  {
    if hi == lo then n == lo else lo <= n < hi
  }

  /** `random.Next(lo, hi)`: any value the generator may return. The source
      never calls it with hi < lo, where it would throw. */
  method Next(lo: int, hi: int) returns (n: int)
    requires lo <= hi
    ensures Drawn(n, lo, hi)
    ensures lo <= n && (n < hi || n == lo)
  {
    assert Drawn(lo, lo, hi);
    n :| Drawn(n, lo, hi);
    assert Drawn(n, lo, hi);
  }

  /** Lower-cases ASCII letters; every other character is kept. */
  function LowerChar(c: char): char
  {
    if 'A' <= c <= 'Z' then (c as int - 'A' as int + 'a' as int) as char else c
  }

  function ToLower(s: string): (r: string)
    ensures |r| == |s|
    ensures forall i :: 0 <= i < |s| ==> r[i] == LowerChar(s[i])
  {
    if s == [] then [] else [LowerChar(s[0])] + ToLower(s[1..])
  }

  lemma {:induction false} ToLowerIdempotent(s: string)
    ensures ToLower(ToLower(s)) == ToLower(s)
  {
    var t := ToLower(s);
    assert forall i :: 0 <= i < |t| ==> LowerChar(t[i]) == t[i];
    assert ToLower(t) == t;
  }

  /** A string of lower-case letters is its own lower-case form. */
  lemma LowerIsFixed(s: string)
    requires forall i :: 0 <= i < |s| ==> 'a' <= s[i] <= 'z'
    ensures ToLower(s) == s
  {
  }

  function DigitChar(d: nat): char
    requires d < 10
  {
    ('0' as int + d) as char
  }

  /** Decimal rendering of a natural number, as C# string interpolation prints it. */
  function NatToString(n: nat): (r: string)
    ensures 1 <= |r|
    ensures forall i :: 0 <= i < |r| ==> '0' <= r[i] <= '9'
    decreases n
  {
    if n < 10 then [DigitChar(n)] else NatToString(n / 10) + [DigitChar(n % 10)]
  }

  function IntToString(n: int): (r: string)
    ensures 1 <= |r|
  {
    if n < 0 then "-" + NatToString(-n) else NatToString(n)
  }

  /** `List<T>.Remove(x)`: drop the first element equal to x; no change if there is none. */
  function RemoveFirst<T(==)>(s: seq<T>, x: T): (r: seq<T>)
    ensures x !in s ==> r == s
    ensures x in s ==> |r| == |s| - 1
  {
    if s == [] then []
    else if s[0] == x then s[1..]
    else [s[0]] + RemoveFirst(s[1..], x)
  }

  /** The position of the first occurrence of x in s. */
  function IndexOf<T(==)>(s: seq<T>, x: T): (k: nat)
    requires x in s
    ensures k < |s| && s[k] == x
    ensures forall j :: 0 <= j < k ==> s[j] != x
  {
    if s[0] == x then 0 else 1 + IndexOf(s[1..], x)
  }

  /** RemoveFirst cuts out exactly the first occurrence and keeps the order of the rest. */
  lemma {:induction false} RemoveFirstAt<T>(s: seq<T>, x: T, k: nat)
    requires k < |s| && s[k] == x
    requires forall j :: 0 <= j < k ==> s[j] != x
    ensures RemoveFirst(s, x) == s[..k] + s[k + 1..]
  {
    if k > 0 {
      RemoveFirstAt(s[1..], x, k - 1);
      assert s[1..][..k - 1] + s[1..][k..] == s[1..k] + s[k + 1..];
      assert [s[0]] + s[1..k] == s[..k];
    }
  }
}
