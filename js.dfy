/**
 * Helpers shared by every page: the few JavaScript built-ins the dashboard
 * leans on (Array.prototype.filter, String.prototype.toLowerCase and
 * includes, parseInt, String(n) and the `x || fallback` idiom), stated once
 * as Dafny functions together with the facts the pages need about them.
 */
module Js {

  /** `undefined`/`null` versus a present value. */
  datatype Option<T> = None | Some(value: T)

  /** The parts of a browser `File` the pages read: its name, MIME type and size in bytes. */
  datatype FileInfo = FileInfo(name: string, fileType: string, size: nat)

  // ---------------------------------------------------------------------
  // Array.prototype.filter
  // ---------------------------------------------------------------------

  /** The elements of `s` that satisfy `p`, in their original order. */
  function Filter<T(!new)>(s: seq<T>, p: T -> bool): (r: seq<T>)
    ensures |r| <= |s|
    ensures forall x :: x in r <==> x in s && p(x)
  {
    if s == [] then []
    else (if p(s[0]) then [s[0]] else []) + Filter(s[1..], p)
  }

  /** One step of the filter: the head is kept iff it passes, then the tail is filtered. */
  lemma FilterCons<T(!new)>(x: T, rest: seq<T>, p: T -> bool)
    ensures Filter([x] + rest, p) == (if p(x) then [x] else []) + Filter(rest, p)
  {
    assert ([x] + rest)[1..] == rest;
  }

  /** The filter keeps every copy of an element that passes and no copy of one that fails. */
  lemma {:induction false} FilterMultiplicity<T(!new)>(s: seq<T>, p: T -> bool)
    ensures forall x :: multiset(Filter(s, p))[x] == if p(x) then multiset(s)[x] else 0
  {
    if s != [] {
      FilterMultiplicity(s[1..], p);
      assert s == [s[0]] + s[1..];
      assert multiset(s) == multiset([s[0]]) + multiset(s[1..]);
    }
  }

  /** Array.prototype.map: `f` applied to every element, in order. */
  function Map<T, U>(s: seq<T>, f: T -> U): (r: seq<U>)
    ensures |r| == |s|
    ensures forall i :: 0 <= i < |s| ==> r[i] == f(s[i])
  {
    if s == [] then [] else [f(s[0])] + Map(s[1..], f)
  }

  /** `r` can be obtained from `s` by deleting elements (order is kept). */
  predicate IsSubsequence<T(==)>(r: seq<T>, s: seq<T>)
  {
    if s == [] then r == []
    else (r != [] && r[0] == s[0] && IsSubsequence(r[1..], s[1..])) || IsSubsequence(r, s[1..])
  }

  lemma {:induction false} FilterIsSubsequence<T(!new)>(s: seq<T>, p: T -> bool)
    ensures IsSubsequence(Filter(s, p), s)
  {
    if s != [] {
      FilterIsSubsequence(s[1..], p);
      var r := Filter(s, p);
      if p(s[0]) {
        assert r[0] == s[0] && r[1..] == Filter(s[1..], p);
      } else {
        assert r == Filter(s[1..], p);
      }
    }
  }

  /** Filtering twice with the same test changes nothing the second time. */
  lemma {:induction false} FilterIdempotent<T(!new)>(s: seq<T>, p: T -> bool)
    ensures Filter(Filter(s, p), p) == Filter(s, p)
  {
    if s != [] {
      FilterIdempotent(s[1..], p);
      FilterAppend(if p(s[0]) then [s[0]] else [], Filter(s[1..], p), p);
    }
  }

  /** A test every element passes keeps the whole sequence. */
  lemma {:induction false} FilterKeepsAll<T(!new)>(s: seq<T>, p: T -> bool)
    requires forall i :: 0 <= i < |s| ==> p(s[i])
    ensures Filter(s, p) == s
  {
    if s != [] {
      FilterKeepsAll(s[1..], p);
    }
  }

  lemma {:induction false} FilterAppend<T(!new)>(a: seq<T>, b: seq<T>, p: T -> bool)
    ensures Filter(a + b, p) == Filter(a, p) + Filter(b, p)
  {
    if a == [] {
      assert a + b == b;
    } else {
      assert (a + b)[1..] == a[1..] + b;
      FilterAppend(a[1..], b, p);
    }
  }

  /** Two tests that agree on every element of `s` keep the same elements. */
  lemma {:induction false} FilterCongruent<T(!new)>(s: seq<T>, p: T -> bool, q: T -> bool)
    requires forall i :: 0 <= i < |s| ==> p(s[i]) == q(s[i])
    ensures Filter(s, p) == Filter(s, q)
  {
    if s != [] {
      FilterCongruent(s[1..], p, q);
    }
  }

  /** A test no element passes keeps nothing. */
  lemma {:induction false} FilterKeepsNone<T(!new)>(s: seq<T>, p: T -> bool)
    requires forall i :: 0 <= i < |s| ==> !p(s[i])
    ensures Filter(s, p) == []
  {
    if s != [] {
      FilterKeepsNone(s[1..], p);
    }
  }

  /** Nothing is kept exactly when no element passes. */
  lemma FilterEmptyIff<T(!new)>(s: seq<T>, p: T -> bool)
    ensures Filter(s, p) == [] <==> forall i :: 0 <= i < |s| ==> !p(s[i])
  {
    var r := Filter(s, p);
    if r != [] {
      assert r[0] in r;
    } else {
      assert forall i :: 0 <= i < |s| ==> s[i] !in r;
    }
  }

  /** Filtering by `p` then by `q` is filtering by their conjunction `pq`. */
  lemma {:induction false} FilterFilter<T(!new)>(s: seq<T>, p: T -> bool, q: T -> bool, pq: T -> bool)
    requires forall x :: pq(x) == (p(x) && q(x))
    ensures Filter(Filter(s, p), q) == Filter(s, pq)
  {
    if s != [] {
      FilterFilter(s[1..], p, q, pq);
      FilterAppend(if p(s[0]) then [s[0]] else [], Filter(s[1..], p), q);
    }
  }

  // ---------------------------------------------------------------------
  // String.prototype.toLowerCase and String.prototype.includes
  // ---------------------------------------------------------------------

  function ToLowerChar(c: char): (r: char)
  {
    if 'A' <= c <= 'Z' then (c as int + 32) as char else c
  }

  /** Lower-cases the ASCII letters of `s`; every other character is kept. */
  function ToLower(s: string): (r: string)
    ensures |r| == |s|
    ensures forall i :: 0 <= i < |s| ==> r[i] == ToLowerChar(s[i])
  {
    if s == [] then [] else [ToLowerChar(s[0])] + ToLower(s[1..])
  }

  /** Lower-casing twice is lower-casing once. */
  lemma ToLowerIdempotent(s: string)
    ensures ToLower(ToLower(s)) == ToLower(s)
  {
  }

  predicate IsPrefix(p: string, s: string)
  {
    |p| <= |s| && s[..|p|] == p
  }

  /** `s.includes(sub)`: `sub` occurs somewhere in `s` as a contiguous block. */
  predicate Contains(s: string, sub: string)
    ensures Contains(s, sub) ==> |sub| <= |s|
    decreases |s|
  {
    IsPrefix(sub, s) || (|s| > 0 && Contains(s[1..], sub))
  }

  /** Witness form of Contains: the occurrences are the offsets where `sub` starts. */
  lemma {:induction false} ContainsAt(s: string, sub: string, k: nat)
    requires k + |sub| <= |s| && s[k..k + |sub|] == sub
    ensures Contains(s, sub)
    decreases k
  {
    if k > 0 {
      assert s[1..][k - 1..k - 1 + |sub|] == s[k..k + |sub|];
      ContainsAt(s[1..], sub, k - 1);
    }
  }

  lemma {:induction false} ContainsWitness(s: string, sub: string) returns (k: nat)
    requires Contains(s, sub)
    ensures k + |sub| <= |s| && s[k..k + |sub|] == sub
    decreases |s|
  {
    if IsPrefix(sub, s) {
      k := 0;
    } else {
      var j := ContainsWitness(s[1..], sub);
      assert s[1..][j..j + |sub|] == s[j + 1..j + 1 + |sub|];
      k := j + 1;
    }
  }

  lemma ContainsEmpty(s: string)
    ensures Contains(s, "")
  {
    assert IsPrefix("", s);
  }

  // ---------------------------------------------------------------------
  // parseInt (decimal, radix omitted) and String(n)
  // ---------------------------------------------------------------------

  /** The ASCII white space that parseInt skips before a number. */
  predicate IsSpace(c: char)
  {
    c == ' ' || c == '\t' || c == '\n' || c == '\r' || c == '\U{B}' || c == '\U{C}'
  }

  predicate IsDigit(c: char)
  {
    '0' <= c <= '9'
  }

  predicate AllDigits(s: string)
  {
    forall i :: 0 <= i < |s| ==> IsDigit(s[i])
  }

  function TrimStart(s: string): (r: string)
    ensures |r| <= |s| && r == s[|s| - |r|..]
    ensures r == [] || !IsSpace(r[0])
  {
    if s != [] && IsSpace(s[0]) then TrimStart(s[1..]) else s
  }

  /** The longest prefix of `s` made of decimal digits. */
  function DigitPrefix(s: string): (r: string)
    ensures IsPrefix(r, s) && AllDigits(r)
    ensures |r| < |s| ==> !IsDigit(s[|r|])
  {
    if s != [] && IsDigit(s[0]) then [s[0]] + DigitPrefix(s[1..]) else []
  }

  function DigitValue(c: char): (d: nat)
    requires IsDigit(c)
    ensures d < 10
  {
    c as int - '0' as int
  }

  function DigitChar(d: nat): (c: char)
    requires d < 10
    ensures IsDigit(c) && DigitValue(c) == d
  {
    ('0' as int + d) as char
  }

  /** The number a string of decimal digits denotes, most significant first. */
  function DigitsValue(ds: string): nat
    requires AllDigits(ds)
  {
    if ds == [] then 0
    else DigitsValue(ds[..|ds| - 1]) * 10 + DigitValue(ds[|ds| - 1])
  }

  /**
   * parseInt(s) without a radix: skip leading white space, read an optional
   * sign, then the longest run of decimal digits; no digit at all is NaN,
   * which is None here.
   */
  function ParseInt(s: string): (r: Option<int>)
    ensures r.None? <==> DigitPrefix(Unsigned(TrimStart(s))) == []
  {
    var t := TrimStart(s);
    var ds := DigitPrefix(Unsigned(t));
    if ds == [] then None
    else if |t| > 0 && t[0] == '-' then Some(-(DigitsValue(ds) as int))
    else Some(DigitsValue(ds))
  }

  /** What follows the optional sign. */
  function Unsigned(t: string): (r: string)
    ensures |r| <= |t|
  {
    if |t| > 0 && (t[0] == '-' || t[0] == '+') then t[1..] else t
  }

  /** String(n) for a non-negative integer: its decimal digits, no leading zero. */
  function NatToString(n: nat): (s: string)
    ensures |s| > 0 && AllDigits(s)
    ensures |s| > 1 ==> s[0] != '0'
  {
    if n < 10 then [DigitChar(n)] else NatToString(n / 10) + [DigitChar(n % 10)]
  }

  /** String(n) for an integer: a minus sign before the digits of a negative number. */
  function IntToString(n: int): (s: string)
    ensures |s| > 0
    ensures s[0] == '-' <==> n < 0
    ensures n < 0 ==> |s| > 1 && AllDigits(s[1..])
    ensures n >= 0 ==> AllDigits(s)
  {
    if n < 0 then "-" + NatToString(-n) else NatToString(n)
  }

  lemma {:induction false} DigitsValueOfNatToString(n: nat)
    ensures DigitsValue(NatToString(n)) == n
  {
    if n >= 10 {
      var s := NatToString(n);
      assert s[..|s| - 1] == NatToString(n / 10);
      DigitsValueOfNatToString(n / 10);
    }
  }

  lemma {:induction false} DigitPrefixOfDigits(s: string)
    requires AllDigits(s)
    ensures DigitPrefix(s) == s
  {
    if s != [] {
      DigitPrefixOfDigits(s[1..]);
    }
  }

  /** The digit run of a number followed by a non-digit stops where the number ends. */
  lemma {:induction false} DigitPrefixStops(ds: string, rest: string)
    requires AllDigits(ds)
    requires rest == [] || !IsDigit(rest[0])
    ensures DigitPrefix(ds + rest) == ds
  {
    if ds != [] {
      assert (ds + rest)[1..] == ds[1..] + rest;
      DigitPrefixStops(ds[1..], rest);
    }
  }

  /** A text that starts with a digit parses to the value of its leading digit run. */
  lemma ParseIntOfLeadingDigits(s: string)
    requires s != [] && IsDigit(s[0])
    ensures ParseInt(s) == Some(DigitsValue(DigitPrefix(s)) as int)
  {
    assert TrimStart(s) == s by {
      assert !IsSpace(s[0]);
    }
    assert Unsigned(s) == s;
  }

  /** parseInt reads a shown number back from the front of a text when a non-digit follows it. */
  lemma NumberThenText(n: nat, rest: string)
    requires rest == [] || !IsDigit(rest[0])
    ensures ParseInt(NatToString(n) + rest) == Some(n)
  {
    var ds := NatToString(n);
    assert (ds + rest)[0] == ds[0];
    ParseIntOfLeadingDigits(ds + rest);
    DigitPrefixStops(ds, rest);
    DigitsValueOfNatToString(n);
  }

  /** Reading back what String(n) shows gives n: parseInt undoes String. */
  lemma ParseIntOfIntToString(n: int)
    ensures ParseInt(IntToString(n)) == Some(n)
  {
    var s := IntToString(n);
    var digits := NatToString(if n < 0 then -n else n);
    assert TrimStart(s) == s by {
      assert !IsSpace(s[0]);
    }
    assert Unsigned(s) == digits;
    DigitPrefixOfDigits(digits);
    DigitsValueOfNatToString(if n < 0 then -n else n);
  }

  /**
   * `parsed || fallback`: NaN and 0 are falsy in JavaScript, so both give
   * way to the fallback; any other number is kept.
   */
  function OrElse(parsed: Option<int>, fallback: int): (r: int)
    ensures parsed.Some? && parsed.value != 0 ==> r == parsed.value
    ensures (parsed.None? || parsed.value == 0) ==> r == fallback
  {
    if parsed.Some? && parsed.value != 0 then parsed.value else fallback
  }

  /** `parseInt(text) || fallback`, the idiom of the numeric settings inputs. */
  function IntOrElse(text: string, fallback: int): (r: int)
    ensures fallback != 0 ==> r != 0
  {
    OrElse(ParseInt(text), fallback)
  }

  /**
   * Showing a number in the input and reading it back keeps it, except 0,
   * which reads back as the fallback.
   */
  lemma IntOrElseOfIntToString(n: int, fallback: int)
    ensures IntOrElse(IntToString(n), fallback) == if n == 0 then fallback else n
  {
    ParseIntOfIntToString(n);
  }

  /** An empty input is NaN and gives the fallback. */
  lemma IntOrElseOfEmpty(fallback: int)
    ensures IntOrElse("", fallback) == fallback
  {
  }
}
