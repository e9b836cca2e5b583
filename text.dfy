/** The string primitives the tool relies on, stated over `seq<char>`:
    ASCII case mapping (`str.lower` / `str.upper`), substring search (`in`),
    character reversal (`s[::-1]`), and whitespace splitting and single-space
    joining (`str.split()` / `" ".join`). */
module Text {

  predicate IsUpperAscii(c: char) { 'A' <= c <= 'Z' }

  predicate IsLowerAscii(c: char) { 'a' <= c <= 'z' }

  function LowerChar(c: char): char {
    if IsUpperAscii(c) then (c as int + 32) as char else c
  }

  function UpperChar(c: char): char {
    if IsLowerAscii(c) then (c as int - 32) as char else c
  }

  /** `str.lower()` on the ASCII letters; every other character is kept. */
  function Lower(s: string): string {
    seq(|s|, i requires 0 <= i < |s| => LowerChar(s[i]))
  }

  /** `str.upper()` on the ASCII letters; every other character is kept. */
  function Upper(s: string): string {
    seq(|s|, i requires 0 <= i < |s| => UpperChar(s[i]))
  }

  lemma LowerConcat(a: string, b: string)
    ensures Lower(a + b) == Lower(a) + Lower(b)
  {
    assert forall i :: 0 <= i < |a + b| ==> Lower(a + b)[i] == (Lower(a) + Lower(b))[i];
  }

  /** A lower-cased string holds no ASCII capital. */
  lemma LowerHasNoCapital(s: string, i: nat)
    requires i < |s|
    ensures !IsUpperAscii(Lower(s)[i])
  {
  }

  /** Lower-casing after upper-casing forgets the upper-casing: `capitalize`
      never changes what a case-insensitive test sees. */
  lemma LowerOfUpper(s: string)
    ensures Lower(Upper(s)) == Lower(s)
  {
    assert forall i :: 0 <= i < |s| ==> LowerChar(UpperChar(s[i])) == LowerChar(s[i]);
  }

  // ---------------------------------------------------------------------------
  // Substring search: Python's `k in s`

  ghost predicate OccursAt(k: string, s: string, i: nat) {
    i + |k| <= |s| && s[i..i + |k|] == k
  }

  /** `k` is a substring of `s` (the empty string is a substring of every string). */
  ghost predicate Occurs(k: string, s: string) {
    exists i: nat :: OccursAt(k, s, i)
  }

  lemma OccursShift(k: string, s: string)
    requires s != []
    ensures Occurs(k, s) <==> OccursAt(k, s, 0) || Occurs(k, s[1..])
  {
    if Occurs(k, s) && !OccursAt(k, s, 0) {
      var i: nat :| OccursAt(k, s, i);
      assert s[1..][i - 1..i - 1 + |k|] == s[i..i + |k|];
      assert OccursAt(k, s[1..], i - 1);
    }
    if Occurs(k, s[1..]) {
      var j: nat :| OccursAt(k, s[1..], j);
      assert s[1..][j..j + |k|] == s[j + 1..j + 1 + |k|];
      assert OccursAt(k, s, j + 1);
    }
  }

  /** Left-to-right substring search. */
  function Contains(s: string, k: string): bool
    decreases |s|
  {
    if |s| < |k| then false
    else if s[..|k|] == k then true
    else Contains(s[1..], k)
  }

  /** The search answers exactly whether `k` is a substring of `s`. */
  lemma {:induction false} ContainsIffOccurs(s: string, k: string)
    ensures Contains(s, k) <==> Occurs(k, s)
    decreases |s|
  {
    if |s| < |k| {
    } else if s[..|k|] == k {
      assert OccursAt(k, s, 0);
    } else {
      OccursShift(k, s);
      ContainsIffOccurs(s[1..], k);
    }
  }

  /** A match inside `pre` is still a match once more text is appended. */
  lemma OccursInPrefix(k: string, pre: string, rest: string, i: nat)
    requires OccursAt(k, pre, i)
    ensures Occurs(k, pre + rest)
  {
    assert (pre + rest)[i..i + |k|] == pre[i..i + |k|];
    assert OccursAt(k, pre + rest, i);
  }

  /** A match inside `post` is still a match once text is prepended. */
  lemma OccursInSuffix(k: string, pre: string, post: string, i: nat)
    requires OccursAt(k, post, i)
    ensures Occurs(k, pre + post)
  {
    assert (pre + post)[|pre| + i..|pre| + i + |k|] == post[i..i + |k|];
    assert OccursAt(k, pre + post, |pre| + i);
  }

  /** A keyword holding an ASCII capital never occurs in lower-cased text. */
  lemma CapitalNeverOccursInLower(k: string, s: string, c: nat)
    requires c < |k| && IsUpperAscii(k[c])
    ensures !Occurs(k, Lower(s))
  {
    if Occurs(k, Lower(s)) {
      var i: nat :| OccursAt(k, Lower(s), i);
      assert Lower(s)[i + c] == k[c];
      LowerHasNoCapital(s, i + c);
    }
  }

  /** Every character of an occurring keyword is a character of the text. */
  lemma OccursAtHasChar(k: string, s: string, i: nat, c: nat)
    requires OccursAt(k, s, i) && c < |k|
    ensures k[c] in s
  {
    assert s[i..i + |k|][c] == s[i + c];
  }

  /** A keyword holding a character the text lacks never occurs in it. */
  lemma AbsentCharNeverOccurs(k: string, s: string, c: nat)
    requires c < |k| && k[c] !in s
    ensures !Occurs(k, s)
  {
    if Occurs(k, s) {
      var i: nat :| OccursAt(k, s, i);
      OccursAtHasChar(k, s, i, c);
    }
  }

  // ---------------------------------------------------------------------------
  // Character reversal: Python's `s[::-1]`

  function Reverse(s: string): (r: string)
    ensures |r| == |s|
    ensures forall i :: 0 <= i < |s| ==> r[i] == s[|s| - 1 - i]
  {
    if s == [] then [] else Reverse(s[1..]) + [s[0]]
  }

  /** Reversing twice gives back the input. */
  lemma {:induction false} ReverseInvolutive(s: string)
    ensures Reverse(Reverse(s)) == s
  {
    var r := Reverse(s);
    assert forall i :: 0 <= i < |s| ==> Reverse(r)[i] == r[|s| - 1 - i] == s[i];
  }

  // ---------------------------------------------------------------------------
  // Whitespace words: Python's `str.split()` and `" ".join(words)`

  /** The characters for which Python's `str.isspace()` holds. */
  predicate IsSpace(c: char) {
    c == ' ' || '\t' <= c <= '\r' || '\U{1c}' <= c <= '\U{1f}'
    || c == '\U{85}' || c == '\U{a0}' || c == '\U{1680}'
    || '\U{2000}' <= c <= '\U{200a}' || c == '\U{2028}' || c == '\U{2029}'
    || c == '\U{202f}' || c == '\U{205f}' || c == '\U{3000}'
  }

  /** A word as `str.split()` yields it: non-empty, no whitespace inside. */
  ghost predicate IsWord(w: string) {
    w != [] && forall i :: 0 <= i < |w| ==> !IsSpace(w[i])
  }

  /** Length of the run of non-space characters at the front of `s`. */
  function WordEnd(s: string): (n: nat)
    ensures n <= |s|
    ensures forall i :: 0 <= i < n ==> !IsSpace(s[i])
    ensures n < |s| ==> IsSpace(s[n])
  {
    if s == [] || IsSpace(s[0]) then 0 else 1 + WordEnd(s[1..])
  }

  /** `str.split()` with no separator: maximal runs of non-space characters,
      leading, trailing and repeated whitespace dropped. */
  function Words(s: string): (ws: seq<string>)
    ensures forall i :: 0 <= i < |ws| ==> IsWord(ws[i])
    decreases |s|
  {
    if s == [] then []
    else if IsSpace(s[0]) then Words(s[1..])
    else
      var n := WordEnd(s);
      [s[..n]] + Words(s[n..])
  }

  /** `" ".join(ws)`. */
  function Join(ws: seq<string>): string {
    if ws == [] then ""
    else if |ws| == 1 then ws[0]
    else ws[0] + " " + Join(ws[1..])
  }

  /** Splitting a single-space join of words gives the words back. */
  lemma {:induction false} WordsOfJoin(ws: seq<string>)
    requires forall i :: 0 <= i < |ws| ==> IsWord(ws[i])
    ensures Words(Join(ws)) == ws
  {
    if ws == [] {
    } else if |ws| == 1 {
      var w := ws[0];
      assert WordEnd(w) == |w| && !IsSpace(w[0]);
      assert w[..|w|] == w && w[|w|..] == [];
      assert Words(w) == [w] + Words([]);
    } else {
      var w, tail := ws[0], Join(ws[1..]);
      var s := w + " " + tail;
      assert s == Join(ws);
      assert forall i :: 0 <= i < |w| ==> s[i] == w[i];
      assert IsSpace(s[|w|]);
      assert WordEnd(s) == |w|;
      assert s[..|w|] == w;
      assert s[|w|..] == " " + tail;
      assert (" " + tail)[1..] == tail;
      WordsOfJoin(ws[1..]);
      assert Words(s) == [w] + Words(" " + tail) == [w] + ws[1..];
    }
  }

  /** Cutting at every whitespace character, empty pieces kept: the pieces
      of `s` between consecutive separators, in order. */
  function SplitAtEachSpace(s: string): (ps: seq<string>)
    ensures |ps| >= 1
    decreases |s|
  {
    var n := WordEnd(s);
    if n == |s| then [s] else [s[..n]] + SplitAtEachSpace(s[n + 1..])
  }

  /** The pieces that are not empty, in order. */
  function NonEmpty(ps: seq<string>): seq<string> {
    if ps == [] then []
    else (if ps[0] == [] then [] else [ps[0]]) + NonEmpty(ps[1..])
  }

  /** `str.split()` as Python documents it: runs of whitespace act as one
      separator and no empty string is produced at the start or the end.
      That is, cut at every whitespace character and drop the empty pieces. */
  lemma {:induction false} WordsAreNonEmptyPieces(s: string)
    ensures Words(s) == NonEmpty(SplitAtEachSpace(s))
    decreases |s|
  {
    var n := WordEnd(s);
    if s == [] {
      assert SplitAtEachSpace(s) == [[]];
    } else if IsSpace(s[0]) {
      assert n == 0;
      assert s[..0] == [];
      WordsAreNonEmptyPieces(s[1..]);
      var rest := SplitAtEachSpace(s[1..]);
      assert ([[]] + rest)[1..] == rest;
    } else if n == |s| {
      assert s[..n] == s && s[n..] == [];
      assert Words(s) == [s];
      assert NonEmpty([s]) == [s] + NonEmpty([]);
    } else {
      assert s[n..][0] == s[n] && s[n..][1..] == s[n + 1..];
      assert Words(s[n..]) == Words(s[n + 1..]);
      WordsAreNonEmptyPieces(s[n + 1..]);
      var rest := SplitAtEachSpace(s[n + 1..]);
      assert s[..n] != [];
      assert ([s[..n]] + rest)[1..] == rest;
    }
  }
}
