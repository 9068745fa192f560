/** What the statistics step reports about a prepared run: the dictionaries of
    the entry point (Statistics) read against the totals and the relabelled
    sources of `load_data_and_train` (Pipeline). */
module RunStatistics {
  import opened Corpus
  import opened Tallies
  import opened SentenceIds
  import opened Pipeline

  /** The label counts add up to the number of training tokens the run
      reported (`NUM_TOKENS`). */
  lemma LabelCountsSumToNumTokens<M, X, Mp>(h: Helpers<M, X, Mp>, train: SplitInput<M>, test: SplitInput<M>,
                                            e: ExpType, tag: string, maxSentL: int, isBrnn: bool,
                                            filterLayers: Option<string>)
    requires PrepareTensors(h, train, test, e, tag, maxSentL, isBrnn, filterLayers).Ok?
    ensures var p := PrepareTensors(h, train, test, e, tag, maxSentL, isBrnn, filterLayers).value;
            MapSum(Tally(Flatten(p.trainTokens.target))) == p.numTokens
  {
    var p := PrepareTensors(h, train, test, e, tag, maxSentL, isBrnn, filterLayers).value;
    SentenceTally(p.trainTokens.target, Tally(Flatten(p.trainTokens.target)));
  }

  /** The train token counts add up to `NUM_SOURCE_TOKENS` in every mode but
      `sent_last`; there `NUM_SOURCE_TOKENS` was taken before the relabelling,
      and the counts add up to the number of training sentences instead. */
  lemma TokenCountsSumToNumSourceTokens<M, X, Mp>(h: Helpers<M, X, Mp>, train: SplitInput<M>, test: SplitInput<M>,
                                                  e: ExpType, tag: string, maxSentL: int, isBrnn: bool,
                                                  filterLayers: Option<string>)
    requires PrepareTensors(h, train, test, e, tag, maxSentL, isBrnn, filterLayers).Ok?
    ensures var p := PrepareTensors(h, train, test, e, tag, maxSentL, isBrnn, filterLayers).value;
            e != SentLast ==> MapSum(Tally(Flatten(p.trainTokens.source))) == p.numSourceTokens
    ensures var p := PrepareTensors(h, train, test, e, tag, maxSentL, isBrnn, filterLayers).value;
            e == SentLast ==> MapSum(Tally(Flatten(p.trainTokens.source))) == |p.trainTokens.source|
  {
    var p := PrepareTensors(h, train, test, e, tag, maxSentL, isBrnn, filterLayers).value;
    SentenceTally(p.trainTokens.source, Tally(Flatten(p.trainTokens.source)));
  }

  /** The relabelled sources of a `sent_last` split are the identifier list
      for its sentence count. */
  lemma RelabelledSources<M, X, Mp>(h: Helpers<M, X, Mp>, isBrnn: bool, tokens: TokenData, acts: seq<M>)
    ensures var r := ExtractSplit(h, SentLast, isBrnn, tokens, acts);
            r.0.source == SentSources(|r.0.source|)
  {
    var r := ExtractSplit(h, SentLast, isBrnn, tokens, acts);
    var n := |r.0.source|;
    assert forall i :: 0 <= i < n ==> r.0.source[i] == SentSources(n)[i];
  }

  /** In a `sent_last` run, every training identifier is counted once, and the
      test `token_counts` give test sentence `i` the count 1 exactly when the
      training split has a sentence at position `i`, and 0 otherwise. */
  lemma SentLastTokenCounts<M, X, Mp>(h: Helpers<M, X, Mp>, train: SplitInput<M>, test: SplitInput<M>,
                                      tag: string, maxSentL: int, isBrnn: bool,
                                      filterLayers: Option<string>, i: nat)
    requires PrepareTensors(h, train, test, SentLast, tag, maxSentL, isBrnn, filterLayers).Ok?
    ensures var p := PrepareTensors(h, train, test, SentLast, tag, maxSentL, isBrnn, filterLayers).value;
            i < |p.trainTokens.source| ==>
              SentId(i) in Tally(Flatten(p.trainTokens.source)) &&
              Tally(Flatten(p.trainTokens.source))[SentId(i)] == 1
    ensures var p := PrepareTensors(h, train, test, SentLast, tag, maxSentL, isBrnn, filterLayers).value;
            i < |p.testTokens.source| ==>
              SentId(i) in SeenCounts(Tally(Flatten(p.trainTokens.source)), Flatten(p.testTokens.source)) &&
              SeenCounts(Tally(Flatten(p.trainTokens.source)), Flatten(p.testTokens.source))[SentId(i)]
              == if i < |p.trainTokens.source| then 1 else 0
  {
    var loader := SelectLoader(SentLast);
    var (trainTokens, trainActs) := Load(h, loader, train, maxSentL);
    var (testTokens, testActs) := Load(h, loader, test, maxSentL);
    RelabelledSources(h, isBrnn, trainTokens, trainActs);
    RelabelledSources(h, isBrnn, testTokens, testActs);
    var p := PrepareTensors(h, train, test, SentLast, tag, maxSentL, isBrnn, filterLayers).value;
    var nTrain, nTest := |p.trainTokens.source|, |p.testTokens.source|;
    SentSourcesTally(nTrain);
    if i < nTest {
      SentSourcesSeenCounts(nTrain, nTest, i);
    }
  }
}
