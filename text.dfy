/**
 * The JavaScript string operations the front end relies on:
 * `toLowerCase` (used to compare addresses), `substring` (used to shorten
 * addresses for display) and `Array.prototype.reverse` (used to show lists
 * newest first).
 */
module Text {

  /** `toLowerCase` on one character of a hex address: only 'A'..'Z' change. */
  function LowerChar(c: char): (d: char)
    ensures !('A' <= d <= 'Z')
    ensures 'a' <= c <= 'z' || 'A' <= c <= 'Z' ==> 'a' <= d <= 'z'
    ensures !('A' <= c <= 'Z') ==> d == c
  {
    if 'A' <= c <= 'Z' then (c as int - 'A' as int + 'a' as int) as char else c
  }

  /** `s.toLowerCase()`, character by character. */
  function Lower(s: string): (r: string)
    ensures |r| == |s|
  {
    if s == [] then [] else [LowerChar(s[0])] + Lower(s[1..])
  }

  /** Character i of the lower-cased string is character i of the input, lower-cased. */
  lemma {:induction false} LowerAt(s: string, i: nat)
    requires i < |s|
    ensures Lower(s)[i] == LowerChar(s[i])
  {
    if i > 0 { LowerAt(s[1..], i - 1); }
  }

  /** Lower-casing twice is lower-casing once. */
  lemma {:induction false} LowerIdempotent(s: string)
    ensures Lower(Lower(s)) == Lower(s)
  {
    if s != [] {
      LowerIdempotent(s[1..]);
      assert Lower(s)[1..] == Lower(s[1..]);
    }
  }

  /** `a.toLowerCase() === b.toLowerCase()`: the address comparison of the profile page. */
  predicate SameAddress(a: string, b: string)
  {
    Lower(a) == Lower(b)
  }

  /** Address comparison ignores case and only case: it is an equivalence that identifies
      equal strings, never strings of different lengths, and a string with its lower-case form. */
  lemma SameAddressIsEquivalence(a: string, b: string, c: string)
    ensures SameAddress(a, a)
    ensures SameAddress(a, b) ==> SameAddress(b, a)
    ensures SameAddress(a, b) && SameAddress(b, c) ==> SameAddress(a, c)
    ensures SameAddress(a, b) ==> |a| == |b|
    ensures SameAddress(a, Lower(a))
  {
    LowerIdempotent(a);
  }

  /** JavaScript clamps every `substring` index into [0, length]. */
  function Clamp(i: int, n: nat): (k: nat)
    ensures k <= n
    ensures 0 <= i <= n ==> k == i
  {
    if i < 0 then 0 else if i > n then n else i
  }

  /** `s.substring(start, end)`: both indices clamped, swapped when start is past end. */
  function Substring(s: string, start: int, end: int): (r: string)
    ensures |r| <= |s|
    ensures 0 <= start <= end <= |s| ==> r == s[start..end]
    ensures 0 <= start <= |s| <= end ==> r == s[start..]
  {
    var a, b := Clamp(start, |s|), Clamp(end, |s|);
    if a <= b then s[a..b] else s[b..a]
  }

  /** `s.substring(start)`: from start to the end, empty once start is past the end. */
  function SubstringFrom(s: string, start: int): (r: string)
    ensures 0 <= start <= |s| ==> r == s[start..]
    ensures start >= |s| ==> r == []
  {
    Substring(s, start, |s|)
  }

  /** `s.substring(0, n)` is the first n characters, or all of s when it is shorter. */
  lemma PrefixSubstring(s: string, n: nat)
    ensures |Substring(s, 0, n)| == if n <= |s| then n else |s|
    ensures Substring(s, 0, n) == if n <= |s| then s[..n] else s
  {
  }

  /** Swapping the two indices of `substring` does not change the result. */
  lemma SubstringSymmetric(s: string, start: int, end: int)
    ensures Substring(s, start, end) == Substring(s, end, start)
  {
  }

  /** `reverse()`: element i of the result is element |s|-1-i of the input. */
  function Reverse<T>(s: seq<T>): (r: seq<T>)
    ensures |r| == |s|
    ensures forall i :: 0 <= i < |s| ==> r[i] == s[|s| - 1 - i]
  {
    if s == [] then [] else Reverse(s[1..]) + [s[0]]
  }

  /** Reversing a concatenation reverses the order of the parts. */
  lemma ReverseAppend<T>(a: seq<T>, b: seq<T>)
    ensures Reverse(a + b) == Reverse(b) + Reverse(a)
  {
    var r, q := Reverse(a + b), Reverse(b) + Reverse(a);
    assert |r| == |q|;
    forall i | 0 <= i < |r| ensures r[i] == q[i] {
      if i < |b| {
        assert q[i] == Reverse(b)[i];
      } else {
        assert q[i] == Reverse(a)[i - |b|];
      }
    }
  }

  /** Reversing twice gives back the input, and reversing keeps the elements. */
  lemma ReverseInvolution<T>(s: seq<T>)
    ensures Reverse(Reverse(s)) == s
    ensures forall x :: x in Reverse(s) <==> x in s
  {
    var r := Reverse(s);
    assert forall i :: 0 <= i < |s| ==> Reverse(r)[i] == s[i];
    forall x | x in s ensures x in r {
      var i :| 0 <= i < |s| && s[i] == x;
      assert r[|s| - 1 - i] == x;
    }
  }
}
