/**
 * The string operations the keyword ranker relies on: `str.lower()`,
 * `str.split()` with no separator, and the substring test `word in text`.
 * Lower-casing and whitespace are ASCII only.
 */
module Text {

  /** The characters for which Python's `str.isspace()` holds in the ASCII range. */
  predicate IsSpace(c: char) {
    9 <= c as int <= 13 || 28 <= c as int <= 32
  }

  predicate IsUpper(c: char) {
    'A' <= c <= 'Z'
  }

  function LowerChar(c: char): (r: char)
    ensures !IsUpper(r)
    ensures IsUpper(c) ==> r as int == c as int + 32
    ensures !IsUpper(c) ==> r == c
  {
    if IsUpper(c) then (c as int + 32) as char else c
  }

  /** `s.lower()`, restricted to ASCII letters. */
  function Lower(s: string): (r: string)
    ensures |r| == |s|
    ensures forall i :: 0 <= i < |s| ==> r[i] == LowerChar(s[i])
  {
    seq(|s|, i requires 0 <= i < |s| => LowerChar(s[i]))
  }

  /** Length of the longest prefix of `s` free of whitespace. */
  function WordLen(s: string): (n: nat)
    ensures n <= |s|
    ensures forall i :: 0 <= i < n ==> !IsSpace(s[i])
    ensures n < |s| ==> IsSpace(s[n])
  {
    if s == [] || IsSpace(s[0]) then 0 else 1 + WordLen(s[1..])
  }

  /** `s.split()`: the maximal runs of non-whitespace characters, in order. */
  function Words(s: string): seq<string>
    decreases |s|
  {
    if s == [] then []
    else if IsSpace(s[0]) then Words(s[1..])
    else
      var n := WordLen(s);
      [s[..n]] + Words(s[n..])
  }

  /** Python's `w in text` for strings: `w` occurs in `text` as a contiguous substring. */
  predicate Contains(text: string, w: string) {
    w <= text || (text != [] && Contains(text[1..], w))
  }

  predicate AllSpace(s: string) {
    forall i :: 0 <= i < |s| ==> IsSpace(s[i])
  }

  predicate NoSpace(w: string) {
    forall i :: 0 <= i < |w| ==> !IsSpace(w[i])
  }

  predicate NoUpper(s: string) {
    forall i :: 0 <= i < |s| ==> !IsUpper(s[i])
  }

  /** `w` occurs in `text` starting at index `i`. */
  predicate OccursAt(text: string, w: string, i: int) {
    0 <= i <= |text| - |w| && text[i..i + |w|] == w
  }

  // ---------------------------------------------------------------------------
  // Lemmas

  /** `Contains` is the substring relation: some window of `text` equals `w`. */
  lemma ContainsIsSubstring(text: string, w: string)
    ensures Contains(text, w) <==> exists i :: OccursAt(text, w, i)
  {
    if Contains(text, w) {
      var i := ContainsAt(text, w);
    }
    forall i | OccursAt(text, w, i) ensures Contains(text, w) {
      OccursContains(text, w, i);
    }
  }

  /** Where `Contains` finds `w`. */
  lemma {:induction false} ContainsAt(text: string, w: string) returns (i: nat)
    requires Contains(text, w)
    ensures OccursAt(text, w, i)
    decreases |text|
  {
    if w <= text {
      i := 0;
    } else {
      var k := ContainsAt(text[1..], w);
      assert text[1..][k..k + |w|] == text[k + 1..k + 1 + |w|];
      i := k + 1;
    }
  }

  /** An occurrence anywhere in `text` is found by `Contains`. */
  lemma {:induction false} OccursContains(text: string, w: string, i: int)
    requires OccursAt(text, w, i)
    ensures Contains(text, w)
    decreases i
  {
    if i > 0 {
      assert text[1..][i - 1..i - 1 + |w|] == text[i..i + |w|];
      OccursContains(text[1..], w, i - 1);
    }
  }

  /** `split()` yields nothing exactly when the string is empty or all whitespace. */
  lemma {:induction false} WordsEmptyIff(s: string)
    ensures Words(s) == [] <==> AllSpace(s)
    decreases |s|
  {
    if s != [] && IsSpace(s[0]) {
      WordsEmptyIff(s[1..]);
      assert AllSpace(s) <==> AllSpace(s[1..]) by {
        assert forall i :: 0 < i < |s| ==> s[i] == s[1..][i - 1];
      }
    }
  }

  /** Every word is non-empty and free of whitespace. */
  lemma {:induction false} WordsWellFormed(s: string)
    ensures forall w :: w in Words(s) ==> w != [] && NoSpace(w)
    decreases |s|
  {
    if s == [] {
    } else if IsSpace(s[0]) {
      WordsWellFormed(s[1..]);
    } else {
      WordsWellFormed(s[WordLen(s)..]);
    }
  }

  /** The words of a string without upper-case letters have none either. */
  lemma {:induction false} WordsNoUpper(s: string)
    requires NoUpper(s)
    ensures forall w :: w in Words(s) ==> NoUpper(w)
    decreases |s|
  {
    if s == [] {
    } else if IsSpace(s[0]) {
      assert NoUpper(s[1..]);
      WordsNoUpper(s[1..]);
    } else {
      var n := WordLen(s);
      assert NoUpper(s[n..]);
      WordsNoUpper(s[n..]);
    }
  }

  lemma {:induction false} WordLenBeforeSpace(t: string, c: char, b: string)
    requires IsSpace(c)
    ensures WordLen(t + [c] + b) == WordLen(t)
    decreases |t|
  {
    if t == [] {
      assert (t + [c] + b)[0] == c;
    } else {
      assert (t + [c] + b)[0] == t[0];
      if !IsSpace(t[0]) {
        assert (t + [c] + b)[1..] == t[1..] + [c] + b;
        WordLenBeforeSpace(t[1..], c, b);
      }
    }
  }

  lemma SliceOfAppend(t: string, x: string, n: nat)
    requires n <= |t|
    ensures (t + x)[n..] == t[n..] + x
    ensures (t + x)[..n] == t[..n]
  {
  }

  /** Joining two strings with a whitespace character joins their word lists. */
  lemma {:induction false} WordsJoin(a: string, c: char, b: string)
    requires IsSpace(c)
    ensures Words(a + [c] + b) == Words(a) + Words(b)
    decreases |a|
  {
    var s := a + [c] + b;
    if a == [] {
      assert s == [c] + b && s[1..] == b;
    } else if IsSpace(a[0]) {
      SliceOfAppend(a, [c] + b, 1);
      assert s == a + ([c] + b);
      assert s[1..] == a[1..] + [c] + b;
      WordsJoin(a[1..], c, b);
    } else {
      var n := WordLen(a);
      WordLenBeforeSpace(a, c, b);
      assert s == a + ([c] + b);
      SliceOfAppend(a, [c] + b, n);
      assert s[n..] == a[n..] + [c] + b;
      WordsJoin(a[n..], c, b);
    }
  }

  /** A non-empty run of non-whitespace characters splits into itself alone. */
  lemma WordsOfWord(w: string)
    requires w != [] && NoSpace(w)
    ensures Words(w) == [w]
  {
    assert WordLen(w) == |w|;
    assert w[|w|..] == [];
    assert w[..|w|] == w;
  }

  lemma LowerAppend(a: string, b: string)
    ensures Lower(a + b) == Lower(a) + Lower(b)
  {
  }

  /** Lower-casing text that has no upper-case letter leaves it unchanged. */
  lemma LowerOfNoUpper(s: string)
    requires NoUpper(s)
    ensures Lower(s) == s
  {
  }
}
