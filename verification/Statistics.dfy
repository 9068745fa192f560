/** The statistics step of the trainer's entry point: three dictionaries filled
    by nested loops over the token data that the training run returns. */
module Statistics {
  import opened Corpus
  import opened Tallies

  /** The counting loop used for `label_counts` (over the train targets) and for
      `token_train_counts` (over the train sources): for every token of every
      sentence, `counts[t] = counts.get(t, 0) + 1`. The result is the tally
      of the flattened sentences; SentenceTally says what its keys and values are. */
  method CountTokens(sentences: seq<seq<string>>) returns (counts: map<string, nat>)
    ensures counts == Tally(Flatten(sentences))
    ensures MapSum(counts) == TotalLength(sentences)
  {
    counts := map[];
    for i := 0 to |sentences|
      invariant counts == Tally(Flatten(sentences[..i]))
    {
      var s := sentences[i];
      ghost var done := Flatten(sentences[..i]);
      assert done + s[..0] == done;
      for j := 0 to |s|
        invariant counts == Tally(done + s[..j])
      {
        var t := s[j];
        TallySnoc(done + s[..j], t);
        assert done + s[..j + 1] == (done + s[..j]) + [t];
        counts := counts[t := (if t in counts then counts[t] else 0) + 1];
      }
      assert s[..|s|] == s;
      FlattenSnoc(sentences, i);
    }
    assert sentences[..|sentences|] == sentences;
    SentenceTally(sentences, counts);
  }

  /** The loop that fills `token_counts`: every token of every test sentence is
      assigned (not added to) its training frequency, 0 when unseen; see
      SentenceSeenCounts for its keys and values. */
  method CountTestTokens(trainCounts: map<string, nat>, sentences: seq<seq<string>>)
    returns (counts: map<string, nat>)
    ensures counts == SeenCounts(trainCounts, Flatten(sentences))
  {
    counts := map[];
    for i := 0 to |sentences|
      invariant counts == SeenCounts(trainCounts, Flatten(sentences[..i]))
    {
      var s := sentences[i];
      ghost var done := Flatten(sentences[..i]);
      assert done + s[..0] == done;
      for j := 0 to |s|
        invariant counts == SeenCounts(trainCounts, done + s[..j])
      {
        var t := s[j];
        SeenCountsSnoc(trainCounts, done + s[..j], t);
        assert done + s[..j + 1] == (done + s[..j]) + [t];
        counts := counts[t := if t in trainCounts then trainCounts[t] else 0];
      }
      assert s[..|s|] == s;
      FlattenSnoc(sentences, i);
    }
    assert sentences[..|sentences|] == sentences;
  }

  /** The three dictionaries of the statistics step, from the train and test
      token data returned by the training run: `label_counts` and
      `token_train_counts` hold exactly the labels (tokens) that occur, each
      with its number of occurrences, and sum to the totals; `token_counts`
      holds exactly the test tokens, each with its training frequency. */
  method ComputeStatistics(train: TokenData, test: TokenData)
    returns (labelCounts: map<string, nat>, tokenTrainCounts: map<string, nat>,
             tokenCounts: map<string, nat>)
    ensures forall l :: l in labelCounts <==> exists i :: 0 <= i < |train.target| && l in train.target[i]
    ensures forall l :: l in labelCounts ==> labelCounts[l] == Occurrences(Flatten(train.target), l)
    ensures MapSum(labelCounts) == TotalLength(train.target)
    ensures forall t :: t in tokenTrainCounts <==> exists i :: 0 <= i < |train.source| && t in train.source[i]
    ensures forall t :: t in tokenTrainCounts ==> tokenTrainCounts[t] == Occurrences(Flatten(train.source), t)
    ensures MapSum(tokenTrainCounts) == TotalLength(train.source)
    ensures forall t :: t in tokenCounts <==> exists i :: 0 <= i < |test.source| && t in test.source[i]
    ensures forall t :: t in tokenCounts ==> tokenCounts[t] == Occurrences(Flatten(train.source), t)
  {
    labelCounts := CountTokens(train.target);
    tokenTrainCounts := CountTokens(train.source);
    tokenCounts := CountTestTokens(tokenTrainCounts, test.source);
    SentenceTally(train.target, labelCounts);
    SentenceTally(train.source, tokenTrainCounts);
    SentenceSeenCounts(tokenTrainCounts, test.source, tokenCounts);
    forall t | t in tokenCounts
      ensures tokenCounts[t] == Occurrences(Flatten(train.source), t)
    {
      TallyMeaning(Flatten(train.source), t);
      OccurrencesPositive(Flatten(train.source), t);
    }
  }
}
