/** The frequency dictionaries the statistics step of the trainer produces,
    as values, and what is known about them. */
module Tallies {
  import opened Corpus

  /** The frequency dictionary of `xs`, built one element at a time by
      `counts[t] = counts.get(t, 0) + 1`; TallyMeaning relates it to Occurrences. */
  function Tally<T(==)>(xs: seq<T>): map<T, nat>
  {
    if xs == [] then map[]
    else
      var counts := Tally(xs[..|xs| - 1]);
      var t := xs[|xs| - 1];
      counts[t := Get(counts, t) + 1]
  }

  /** `counts.get(t, 0)` */
  function Get<T(==)>(counts: map<T, nat>, t: T): nat
  {
    if t in counts then counts[t] else 0
  }

  /** The dictionary built from distinct test tokens: each is mapped to its
      frequency in `trainCounts`, or 0 when training never saw it. */
  function SeenCounts<T(==)>(trainCounts: map<T, nat>, xs: seq<T>): map<T, nat>
  {
    map t | t in xs :: Get(trainCounts, t)
  }

  /** Sum of the values of a finite map (order does not matter; see MapSumRemove). */
  ghost function MapSum<K>(m: map<K, nat>): nat
    decreases |m|
  {
    if |m| == 0 then 0
    else
      var k := SomeKey(m);
      assert (m - {k}).Keys == m.Keys - {k};
      m[k] + MapSum(m - {k})
  }

  /** An arbitrary key of a non-empty map. */
  ghost function SomeKey<K>(m: map<K, nat>): (k: K)
    requires |m| != 0
    ensures k in m
  {
    var k :| k in m; k
  }

  /** The keys of a tally are exactly the elements of `xs`, and each value is
      that element's number of occurrences (so it is at least one). */
  lemma {:induction false} TallyMeaning<T>(xs: seq<T>, t: T)
    ensures t in Tally(xs) <==> t in xs
    ensures t in Tally(xs) ==> Tally(xs)[t] == Occurrences(xs, t) >= 1
  {
    if xs == [] {
    } else {
      var init := xs[..|xs| - 1];
      assert xs == init + [xs[|xs| - 1]];
      TallyMeaning(init, t);
      OccurrencesPositive(init, t);
    }
  }

  /** One step of `counts[t] = counts.get(t, 0) + 1`. */
  lemma TallySnoc<T>(xs: seq<T>, t: T)
    ensures Tally(xs + [t]) == Tally(xs)[t := Get(Tally(xs), t) + 1]
  {
    assert (xs + [t])[..|xs|] == xs;
  }

  /** One step of `counts[t] = train_counts.get(t, 0)`. */
  lemma SeenCountsSnoc<T>(trainCounts: map<T, nat>, xs: seq<T>, t: T)
    ensures SeenCounts(trainCounts, xs + [t])
         == SeenCounts(trainCounts, xs)[t := Get(trainCounts, t)]
  {
  }

  /** Repeating a test token that is already present leaves the dictionary
      as it was: repeated occurrences add nothing. */
  lemma SeenCountsRepeat<T>(trainCounts: map<T, nat>, xs: seq<T>, t: T)
    requires t in xs
    ensures SeenCounts(trainCounts, xs + [t]) == SeenCounts(trainCounts, xs)
  {
    SeenCountsSnoc(trainCounts, xs, t);
  }

  /** Removing any key splits its value off the sum: MapSum does not depend on
      which key the definition picks. */
  lemma {:induction false} MapSumRemove<K>(m: map<K, nat>, k: K)
    requires k in m
    ensures MapSum(m) == m[k] + MapSum(m - {k})
    decreases |m|
  {
    var j := SomeKey(m);
    if j != k {
      var mj, mk := m - {j}, m - {k};
      assert mj.Keys == m.Keys - {j};
      assert mk.Keys == m.Keys - {k};
      MapSumRemove(mj, k);
      MapSumRemove(mk, j);
      assert mj - {k} == mk - {j};
    }
  }

  /** Summing after overwriting one key. */
  lemma MapSumUpdate<K>(m: map<K, nat>, k: K, v: nat)
    ensures MapSum(m[k := v]) == MapSum(m - {k}) + v
  {
    MapSumRemove(m[k := v], k);
    assert m[k := v] - {k} == m - {k};
  }

  /** The counts of a tally add up to the number of tallied elements. */
  lemma {:induction false} TallySum<T>(xs: seq<T>)
    ensures MapSum(Tally(xs)) == |xs|
  {
    if xs == [] {
      assert Tally(xs) == map[];
    } else {
      var init, t := xs[..|xs| - 1], xs[|xs| - 1];
      assert xs == init + [t];
      TallySum(init);
      TallySnoc(init, t);
      TallyStepSum(Tally(init), t);
    }
  }

  /** Incrementing one entry of a dictionary (`get(t, 0) + 1`) adds one to its sum. */
  lemma TallyStepSum<T>(m: map<T, nat>, t: T)
    ensures MapSum(m[t := Get(m, t) + 1]) == MapSum(m) + 1
  {
    MapSumUpdate(m, t, Get(m, t) + 1);
    if t in m {
      MapSumRemove(m, t);
    } else {
      assert m - {t} == m;
    }
  }

  /** The tally of a split's tokens at one token. */
  lemma SentenceTallyAt<T>(ss: seq<seq<T>>, t: T)
    ensures t in Tally(Flatten(ss)) <==> exists i :: 0 <= i < |ss| && t in ss[i]
    ensures t in Tally(Flatten(ss)) ==> Tally(Flatten(ss))[t] == Occurrences(Flatten(ss), t) >= 1
  {
    TallyMeaning(Flatten(ss), t);
    FlattenMembership(ss, t);
  }

  /** The tally of a split's tokens: its keys are exactly the tokens some
      sentence holds, each value is that token's number of occurrences across
      all sentences, and the values add up to the split's total length. */
  lemma SentenceTally<T>(ss: seq<seq<T>>, counts: map<T, nat>)
    requires counts == Tally(Flatten(ss))
    ensures forall t :: t in counts <==> exists i :: 0 <= i < |ss| && t in ss[i]
    ensures forall t :: t in counts ==> counts[t] == Occurrences(Flatten(ss), t) >= 1
    ensures MapSum(counts) == TotalLength(ss)
  {
    forall t {
      SentenceTallyAt(ss, t);
    }
    TallySum(Flatten(ss));
    FlattenLength(ss);
  }

  /** The dictionary of a test split's tokens: its keys are exactly the tokens
      some test sentence holds, each mapped to its training count or 0. */
  lemma SentenceSeenCounts<T>(trainCounts: map<T, nat>, ss: seq<seq<T>>, counts: map<T, nat>)
    requires counts == SeenCounts(trainCounts, Flatten(ss))
    ensures forall t :: t in counts <==> exists i :: 0 <= i < |ss| && t in ss[i]
    ensures forall t :: t in counts ==> counts[t] == Get(trainCounts, t)
  {
    forall t {
      FlattenMembership(ss, t);
    }
  }
}
