/** The token data of one split as the loaders return it, and the sums and
    occurrence counts taken over its sentences. */
module Corpus {

  /** One split (train or test): per sentence, its source tokens, its labels
      and, for the sub-token modes, its auxiliary (BPE or character) tokens.
      The loaders that take no auxiliary stream leave `sourceAux` empty. */
  datatype TokenData = TokenData(
    source: seq<seq<string>>,
    target: seq<seq<string>>,
    sourceAux: seq<seq<string>>)

  /** All tokens of a split in iteration order: sentence by sentence, then
      token by token within a sentence. */
  function Flatten<T>(ss: seq<seq<T>>): seq<T>
  {
    if ss == [] then [] else Flatten(ss[..|ss| - 1]) + ss[|ss| - 1]
  }

  /** `sum([len(t) for t in ss])`, accumulated from the first sentence on. */
  function TotalLength<T>(ss: seq<seq<T>>): nat
  {
    if ss == [] then 0 else TotalLength(ss[..|ss| - 1]) + |ss[|ss| - 1]|
  }

  /** Number of positions of `xs` that hold `x`. */
  function Occurrences<T(==)>(xs: seq<T>, x: T): nat
  {
    if xs == [] then 0
    else Occurrences(xs[..|xs| - 1], x) + (if xs[|xs| - 1] == x then 1 else 0)
  }

  /** The sum of the sentence lengths is the number of flattened tokens. */
  lemma {:induction false} FlattenLength<T>(ss: seq<seq<T>>)
    ensures |Flatten(ss)| == TotalLength(ss)
  {
    if ss != [] {
      FlattenLength(ss[..|ss| - 1]);
    }
  }

  /** A token occurs in the flattened split exactly when some sentence holds it. */
  lemma {:induction false} FlattenMembership<T>(ss: seq<seq<T>>, t: T)
    ensures t in Flatten(ss) <==> exists i :: 0 <= i < |ss| && t in ss[i]
  {
    if ss != [] {
      var init := ss[..|ss| - 1];
      FlattenMembership(init, t);
      if t in Flatten(init) {
        var i :| 0 <= i < |init| && t in init[i];
        assert ss[i] == init[i];
      }
      if exists i :: 0 <= i < |ss| && t in ss[i] {
        var i :| 0 <= i < |ss| && t in ss[i];
        if i < |ss| - 1 {
          assert init[i] == ss[i];
        }
      }
    }
  }

  /** Flattening one more sentence appends its tokens. */
  lemma FlattenSnoc<T>(ss: seq<seq<T>>, i: nat)
    requires i < |ss|
    ensures Flatten(ss[..i + 1]) == Flatten(ss[..i]) + ss[i]
  {
    assert ss[..i + 1][..i] == ss[..i];
  }

  /** A value has a positive count exactly when it occurs. */
  lemma {:induction false} OccurrencesPositive<T>(xs: seq<T>, x: T)
    ensures Occurrences(xs, x) > 0 <==> x in xs
  {
    if xs != [] {
      var init := xs[..|xs| - 1];
      OccurrencesPositive(init, x);
      assert xs == init + [xs[|xs| - 1]];
    }
  }

  /** In a sequence without repetitions every element occurs exactly once. */
  lemma {:induction false} OccurrencesDistinct<T>(xs: seq<T>, k: nat)
    requires forall i, j :: 0 <= i < j < |xs| ==> xs[i] != xs[j]
    requires k < |xs|
    ensures Occurrences(xs, xs[k]) == 1
  {
    var init := xs[..|xs| - 1];
    if k == |xs| - 1 {
      OccurrencesPositive(init, xs[k]);
      assert xs[k] !in init;
    } else {
      OccurrencesDistinct(init, k);
      assert init[k] == xs[k];
    }
  }
}
