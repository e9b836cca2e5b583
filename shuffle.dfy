/** `random.shuffle` as CPython implements it: a Fisher-Yates pass from the
    last index down to 1, swapping each position `i` with `randbelow(i + 1)`.
    The random source is an injected stream `rng`; the value at `rng(pos)`
    answers the `pos`-th draw, reduced below its bound. */
module Shuffle {
  import opened Text

  /** The outcome of `randbelow(bound)` when it reads draw `pos` of the stream. */
  function RandBelow(rng: nat -> nat, pos: nat, bound: nat): (j: nat)
    requires bound > 0
    ensures j < bound
  {
    rng(pos) % bound
  }

  function Swap<T>(s: seq<T>, i: nat, j: nat): (r: seq<T>)
    requires i < |s| && j < |s|
  {
    s[i := s[j]][j := s[i]]
  }

  /** The steps `i`, `i - 1`, ..., `1` of the pass, reading draws from `pos` on. */
  function ShuffleFrom<T>(s: seq<T>, i: nat, rng: nat -> nat, pos: nat): seq<T>
    requires i == 0 || i < |s|
    decreases i
  {
    if i == 0 then s
    else ShuffleFrom(Swap(s, i, RandBelow(rng, pos, i + 1)), i - 1, rng, pos + 1)
  }

  /** The list after `random.shuffle`. */
  function Shuffled<T>(s: seq<T>, rng: nat -> nat, pos: nat): seq<T> {
    if |s| <= 1 then s else ShuffleFrom(s, |s| - 1, rng, pos)
  }

  /** How many draws `random.shuffle` takes from the stream on a list of length `n`. */
  function ShuffleDraws(n: nat): nat {
    if n <= 1 then 0 else n - 1
  }

  lemma {:induction false} ShuffleFromPermutes<T>(s: seq<T>, i: nat, rng: nat -> nat, pos: nat)
    requires i == 0 || i < |s|
    ensures |ShuffleFrom(s, i, rng, pos)| == |s|
    ensures multiset(ShuffleFrom(s, i, rng, pos)) == multiset(s)
    decreases i
  {
    if i > 0 {
      var t := Swap(s, i, RandBelow(rng, pos, i + 1));
      assert multiset(t) == multiset(s);
      ShuffleFromPermutes(t, i - 1, rng, pos + 1);
    }
  }

  /** The shuffled list is a permutation of the input: same length, same multiset. */
  lemma ShuffledPermutes<T>(s: seq<T>, rng: nat -> nat, pos: nat)
    ensures |Shuffled(s, rng, pos)| == |s|
    ensures multiset(Shuffled(s, rng, pos)) == multiset(s)
  {
    if |s| > 1 {
      ShuffleFromPermutes(s, |s| - 1, rng, pos);
    }
  }

  /** `x[i], x[j] = x[j], x[i]` */
  method SwapInPlace(a: array<string>, i: nat, j: nat)
    requires i < a.Length && j < a.Length
    modifies a
    ensures a[..] == Swap(old(a[..]), i, j)
  {
    a[i], a[j] := a[j], a[i];
  }

  /** `random.shuffle(words)` in place; returns the position of the next unread draw. */
  method ShuffleInPlace(a: array<string>, rng: nat -> nat, pos: nat) returns (next: nat)
    modifies a
    ensures a[..] == Shuffled(old(a[..]), rng, pos)
    ensures next == pos + ShuffleDraws(a.Length)
  {
    next := pos;
    if a.Length <= 1 {
      return;
    }
    ghost var input := a[..];
    var i := a.Length - 1;
    while i > 0
      invariant 0 <= i < a.Length
      invariant next == pos + (a.Length - 1 - i)
      invariant ShuffleFrom(a[..], i, rng, next) == Shuffled(input, rng, pos)
    {
      var j := RandBelow(rng, next, i + 1);
      ghost var before := a[..];
      SwapInPlace(a, i, j);
      assert ShuffleFrom(before, i, rng, next) == ShuffleFrom(a[..], i - 1, rng, next + 1);
      i := i - 1;
      next := next + 1;
    }
  }

  /** The shuffle branch of augmentation: the words of the output are a
      permutation of the words of the input, whatever the draws. */
  lemma ShuffleKeepsWords(prompt: string, rng: nat -> nat, pos: nat)
    ensures multiset(Words(Join(Shuffled(Words(prompt), rng, pos)))) == multiset(Words(prompt))
    ensures |Words(prompt)| <= 1 ==> Words(Join(Shuffled(Words(prompt), rng, pos))) == Words(prompt)
  {
    var ws := Words(prompt);
    var out := Shuffled(ws, rng, pos);
    ShuffledPermutes(ws, rng, pos);
    forall i | 0 <= i < |out|
      ensures IsWord(out[i])
    {
      assert out[i] in multiset(ws);
    }
    WordsOfJoin(out);
  }
}
