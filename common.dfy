/** Option: the result of a call into a foreign service that may raise. */
module Wrappers {

  datatype Option<+T> = None | Some(value: T)
}

/** String and sequence helpers used by the indexer, the answer composer and
    the evaluators. */
module Text {

  /** The decimal digit character for d. */
  function DigitChar(d: nat): (c: char)
    requires d < 10
    ensures '0' <= c <= '9'
    ensures c as int - '0' as int == d
  {
    ('0' as int + d) as char
  }

  /** Python's f"{n}" for a non-negative integer: decimal digits, no leading zero. */
  function NatToString(n: nat): (s: string)
    ensures |s| >= 1
    ensures n < 10 <==> |s| == 1
    ensures forall k :: 0 <= k < |s| ==> '0' <= s[k] <= '9'
    ensures |s| > 1 ==> s[0] != '0'
    decreases n
  {
    if n < 10 then [DigitChar(n)] else NatToString(n / 10) + [DigitChar(n % 10)]
  }

  /** Distinct numbers are rendered as distinct strings. */
  lemma {:induction false} NatToStringInjective(a: nat, b: nat)
    requires NatToString(a) == NatToString(b)
    ensures a == b
  {
    var s := NatToString(a);
    if a >= 10 && b >= 10 {
      var pa, pb := NatToString(a / 10), NatToString(b / 10);
      assert s == pa + [DigitChar(a % 10)];
      assert s == pb + [DigitChar(b % 10)];
      assert |pa| == |pb|;
      assert DigitChar(a % 10) == s[|s| - 1] == DigitChar(b % 10);
      assert pa == s[..|s| - 1] == pb;
      NatToStringInjective(a / 10, b / 10);
    } else if a < 10 && b < 10 {
      assert DigitChar(a) == s[0] == DigitChar(b);
    }
  }

  /** A fixed tag followed by the decimal rendering of a number, as in
      f"text_{i}": distinct numbers give distinct tagged strings. */
  lemma TaggedDistinct(tag: string, i: nat, j: nat)
    requires i != j
    ensures tag + NatToString(i) != tag + NatToString(j)
  {
    if tag + NatToString(i) == tag + NatToString(j) {
      assert (tag + NatToString(i))[|tag|..] == NatToString(i);
      assert (tag + NatToString(j))[|tag|..] == NatToString(j);
      NatToStringInjective(i, j);
    }
  }

  /** Python's sep.join(parts). */
  function Join(parts: seq<string>, sep: string): (s: string)
  {
    if |parts| == 0 then ""
    else if |parts| == 1 then parts[0]
    else parts[0] + sep + Join(parts[1..], sep)
  }

  /** No element occurs twice. */
  predicate NoDup<T(==)>(s: seq<T>)
  {
    forall i, j :: 0 <= i < |s| && 0 <= j < |s| && i != j ==> s[i] != s[j]
  }

  /** The set of elements of a sequence: Python's set(s). */
  function Elements<T>(s: seq<T>): set<T>
  {
    set x | x in s
  }
}
