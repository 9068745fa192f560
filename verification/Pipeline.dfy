/** The data-preparation part of `load_data_and_train`: which loader and which
    representation extractor each experiment type uses, the token totals, the
    sentence-level relabelling, the optional layer filter and the two tensor
    builds. The helpers it calls live in modules that are not part of this
    model, so they are parameters (see Helpers) and nothing is assumed about
    what they compute. */
module Pipeline {
  import opened Corpus
  import opened SentenceIds

  datatype Option<T> = None | Some(value: T)

  /** The experiment types accepted by `--exp-type`. */
  datatype ExpType = Word | CharCnn | BpeAvg | BpeLast | CharAvg | CharLast | SentLast

  /** The loader a run reads its token data with. */
  datatype Loader = LoadData(sentenceClassification: bool) | LoadAuxData

  /** The representation extractors; the `*Last` ones take the
      bidirectionality flag. */
  datatype Extractor =
    | BpeAvgActivations
    | BpeLastActivations(isBrnn: bool)
    | CharAvgActivations
    | CharLastActivations(isBrnn: bool)
    | SentLastActivations(isBrnn: bool)
  {
    /** The experiment type this extractor belongs to. */
    function Mode(): ExpType
    {
      match this
      case BpeAvgActivations => BpeAvg
      case BpeLastActivations(_) => BpeLast
      case CharAvgActivations => CharAvg
      case CharLastActivations(_) => CharLast
      case SentLastActivations(_) => SentLast
    }

    /** Extractors that align sub-token (BPE or character) rows to words. */
    predicate AlignsSubTokens()
    {
      !SentLastActivations?
    }
  }

  /** The helpers `load_data_and_train` calls, supplied by the caller:
      `data_loader.load_data` / `load_aux_data`, the `repr.*_activations`
      extractors, `utils.filter_activations_by_layers`, `utils.create_tensors`
      (returning the tensor pair and the vocabulary mappings), and the neuron
      count of one activation matrix (`shape[1]`). `M` is one sentence's
      activation matrix, `X` a tensor pair, `Mp` the four vocabulary tables.
      A loader receives the split's activation list and may change it in
      place (the loaders truncate each sentence's rows along with its tokens);
      since the script keeps using that same list afterwards, a loader here
      returns the token data together with the activation list as it leaves it. */
  datatype Helpers<!M, X, !Mp> = Helpers(
    loadData: (string, string, seq<M>, int, bool) -> (TokenData, seq<M>),
    loadAuxData: (string, string, Option<string>, seq<M>, int) -> (TokenData, seq<M>),
    extract: (Extractor, TokenData, seq<M>) -> seq<M>,
    filterByLayers: (seq<M>, seq<M>, string, nat, nat) -> (seq<M>, seq<M>),
    createTensors: (TokenData, seq<M>, string, Option<Mp>) -> (X, Mp),
    neurons: M -> nat)

  /** One split's inputs: the source, auxiliary-source and label file names,
      and its activations as `data_loader.load_activations` returned them. */
  datatype SplitInput<M> = SplitInput(
    source: string, auxSource: Option<string>, labels: string, activations: seq<M>)

  /** What the run has prepared when it reaches model training. */
  datatype Prepared<M, X, Mp> = Prepared(
    trainTokens: TokenData,
    testTokens: TokenData,
    numTokens: nat,
    numSourceAuxTokens: Option<nat>,
    numSourceTokens: nat,
    numNeurons: nat,
    trainActivations: seq<M>,
    testActivations: seq<M>,
    trainTensors: X,
    testTensors: X,
    mappings: Mp)

  /** `train_activations[0]` on an empty (loaded) activation list raises. */
  datatype Error = NoTrainActivations

  datatype Result<T> = Ok(value: T) | Err(error: Error)

  /** Width of one layer and number of directions given to the layer filter. */
  const LAYER_WIDTH: nat := 500
  const NUM_DIRECTIONS: nat := 2

  /** Loader selection: the word-aligned modes (`word`, `charcnn`, `sent_last`)
      use `load_data`, with sentence classification only for `sent_last`;
      every other mode uses `load_aux_data`. */
  function SelectLoader(e: ExpType): (l: Loader)
    ensures l.LoadData? <==> e in {Word, CharCnn, SentLast}
    ensures l.LoadData? ==> (l.sentenceClassification <==> e == SentLast)
  {
    if e == Word || e == CharCnn || e == SentLast then LoadData(e == SentLast) else LoadAuxData
  }

  /** Whether the auxiliary-token total is computed. */
  predicate CountsAuxTokens(e: ExpType)
  {
    e != Word && e != CharCnn && e != SentLast
  }

  /** Extractor selection: `word` and `charcnn` use none; each other mode uses
      the extractor of that mode, and only the `*_last` ones receive the
      bidirectionality flag. */
  function SelectExtractor(e: ExpType, isBrnn: bool): (x: Option<Extractor>)
    ensures x.None? <==> e in {Word, CharCnn}
    ensures x.Some? ==> x.value.Mode() == e
    ensures x.Some? && e in {BpeLast, CharLast, SentLast} ==> x.value.isBrnn == isBrnn
  {
    match e
    case Word => None
    case CharCnn => None
    case BpeAvg => Some(BpeAvgActivations)
    case BpeLast => Some(BpeLastActivations(isBrnn))
    case CharAvg => Some(CharAvgActivations)
    case CharLast => Some(CharLastActivations(isBrnn))
    case SentLast => Some(SentLastActivations(isBrnn))
  }

  /** The two dispatches agree: a mode reads the auxiliary stream with
      `load_aux_data` exactly when its extractor aligns sub-tokens to words,
      and exactly then is the auxiliary-token total computed. */
  lemma LoaderMatchesExtractor(e: ExpType, isBrnn: bool)
    ensures SelectLoader(e) == LoadAuxData <==>
              SelectExtractor(e, isBrnn).Some? && SelectExtractor(e, isBrnn).value.AlignsSubTokens()
    ensures CountsAuxTokens(e) <==> SelectLoader(e) == LoadAuxData
  {
  }

  /** No two modes share an extractor. */
  lemma ExtractorsDistinct(e1: ExpType, e2: ExpType, isBrnn: bool)
    requires SelectExtractor(e1, isBrnn).Some? && SelectExtractor(e1, isBrnn) == SelectExtractor(e2, isBrnn)
    ensures e1 == e2
  {
  }

  /** One loader call (lines 34-38): the token data, and the split's
      activation list as the loader leaves it. */
  function Load<M, X, Mp>(h: Helpers<M, X, Mp>, l: Loader, split: SplitInput<M>, maxSentL: int): (TokenData, seq<M>)
  {
    match l
    case LoadData(sentenceClassification) =>
      h.loadData(split.source, split.labels, split.activations, maxSentL, sentenceClassification)
    case LoadAuxData =>
      h.loadAuxData(split.source, split.labels, split.auxSource, split.activations, maxSentL)
  }

  /** The extraction step for one split, done identically for train and test:
      `word` and `charcnn` leave tokens and activations as they are; every
      other mode replaces the activations with its extractor's output; only
      `sent_last` touches the tokens, replacing each sentence's source by its
      own identifier, one sentence per extracted activation entry. Targets and
      auxiliary tokens are never changed. */
  function ExtractSplit<M, X, Mp>(h: Helpers<M, X, Mp>, e: ExpType, isBrnn: bool,
                                  tokens: TokenData, acts: seq<M>): (r: (TokenData, seq<M>))
    ensures e in {Word, CharCnn} ==> r == (tokens, acts)
    ensures SelectExtractor(e, isBrnn).Some? ==>
              r.1 == h.extract(SelectExtractor(e, isBrnn).value, tokens, acts)
    ensures r.0.target == tokens.target && r.0.sourceAux == tokens.sourceAux
    ensures e != SentLast ==> r.0.source == tokens.source
    ensures e == SentLast ==> |r.0.source| == |r.1| && TotalLength(r.0.source) == |r.1|
    ensures e == SentLast ==> forall i :: 0 <= i < |r.1| ==> r.0.source[i] == [SentId(i)]
  {
    match SelectExtractor(e, isBrnn)
    case None => (tokens, acts)
    case Some(x) =>
      var extracted := h.extract(x, tokens, acts);
      if e == SentLast then
        SentSourcesLength(|extracted|);
        (tokens.(source := SentSources(|extracted|)), extracted)
      else (tokens, extracted)
  }

  /** `if filter_layers:` — an absent or empty filter specification is false. */
  predicate FiltersLayers(filterLayers: Option<string>)
  {
    filterLayers.Some? && filterLayers.value != ""
  }

  /** `load_data_and_train` up to the point where the model is trained. */
  function PrepareTensors<M, X, Mp>(h: Helpers<M, X, Mp>, train: SplitInput<M>, test: SplitInput<M>,
                                    e: ExpType, tag: string, maxSentL: int, isBrnn: bool,
                                    filterLayers: Option<string>): (r: Result<Prepared<M, X, Mp>>)
    ensures r.Err? <==> Load(h, SelectLoader(e), train, maxSentL).1 == []
    ensures r.Ok? ==>
              var (loaded, loadedActs) := Load(h, SelectLoader(e), train, maxSentL);
              && r.value.numTokens == TotalLength(loaded.target) == TotalLength(r.value.trainTokens.target)
              && r.value.numSourceTokens == TotalLength(loaded.source)
              && (r.value.numSourceAuxTokens.Some? <==> CountsAuxTokens(e))
              && (r.value.numSourceAuxTokens.Some? ==>
                    r.value.numSourceAuxTokens.value == TotalLength(loaded.sourceAux))
              && loadedActs != [] && r.value.numNeurons == h.neurons(loadedActs[0])
    ensures r.Ok? ==>
              var (trainL, testL) := (Load(h, SelectLoader(e), train, maxSentL), Load(h, SelectLoader(e), test, maxSentL));
              var trainX := ExtractSplit(h, e, isBrnn, trainL.0, trainL.1);
              var testX := ExtractSplit(h, e, isBrnn, testL.0, testL.1);
              && r.value.trainTokens == trainX.0
              && r.value.testTokens == testX.0
              && (!FiltersLayers(filterLayers) ==>
                    r.value.trainActivations == trainX.1 && r.value.testActivations == testX.1)
              && (FiltersLayers(filterLayers) ==>
                    (r.value.trainActivations, r.value.testActivations)
                    == h.filterByLayers(trainX.1, testX.1, filterLayers.value, LAYER_WIDTH, NUM_DIRECTIONS))
    ensures r.Ok? ==>
              var (trainTensors, trainMappings) :=
                h.createTensors(r.value.trainTokens, r.value.trainActivations, tag, None);
              && r.value.trainTensors == trainTensors
              && (r.value.testTensors, r.value.mappings)
                 == h.createTensors(r.value.testTokens, r.value.testActivations, tag, Some(trainMappings))
  {
    var loader := SelectLoader(e);
    var (trainTokens, trainLoadedActs) := Load(h, loader, train, maxSentL);
    var (testTokens, testLoadedActs) := Load(h, loader, test, maxSentL);
    var numTokens := TotalLength(trainTokens.target);
    var numSourceAuxTokens := if CountsAuxTokens(e) then Some(TotalLength(trainTokens.sourceAux)) else None;
    var numSourceTokens := TotalLength(trainTokens.source);
    if trainLoadedActs == [] then Err(NoTrainActivations)
    else
      var numNeurons := h.neurons(trainLoadedActs[0]);
      var (trainTokens', trainActs) := ExtractSplit(h, e, isBrnn, trainTokens, trainLoadedActs);
      var (testTokens', testActs) := ExtractSplit(h, e, isBrnn, testTokens, testLoadedActs);
      var (trainActs', testActs') :=
        if FiltersLayers(filterLayers)
        then h.filterByLayers(trainActs, testActs, filterLayers.value, LAYER_WIDTH, NUM_DIRECTIONS)
        else (trainActs, testActs);
      var (trainTensors, trainMappings) := h.createTensors(trainTokens', trainActs', tag, None);
      var (testTensors, mappings) := h.createTensors(testTokens', testActs', tag, Some(trainMappings));
      Ok(Prepared(trainTokens', testTokens', numTokens, numSourceAuxTokens, numSourceTokens, numNeurons,
                  trainActs', testActs', trainTensors, testTensors, mappings))
  }
}
