# Probing-classifier trainer: statistics and data preparation

This project is a Dafny model of the driver script `train_classifier.py` of
NeuroX. The script trains a linear probe on neural-network activations. The
model covers the parts of the script that carry self-contained logic:

- **Frequency tallies.** After training, the entry point builds three
  dictionaries. `label_counts` counts each label of the training targets.
  `token_train_counts` counts each token of the training sources.
  `token_counts` maps each distinct test source token to its training
  frequency, or 0 when training never saw it. The model writes these as
  methods with nested loops (module `Statistics`). Each method is proved
  against a pure specification (module `Tallies`): `Tally` is a recursive
  counting function, `SeenCounts` is a map comprehension, and
  `Occurrences` (module `Corpus`) is an independent occurrence count that
  `Tally` is proved to agree with.
- **Token totals.** `NUM_TOKENS`, `NUM_SOURCE_AUX_TOKENS` and
  `NUM_SOURCE_TOKENS` are sums of sentence lengths (`TotalLength`). The label
  counts add up to `NUM_TOKENS`. The source-token counts add up to
  `NUM_SOURCE_TOKENS` in every mode except `sent_last`.
- **Experiment-type dispatch.** The experiment type selects the loader
  (`load_data` or `load_aux_data`) and the representation extractor. It also
  decides whether the auxiliary-token total is computed, and whether sources
  are relabelled as `sent_<i>` (module `Pipeline`). The identifier format
  `'sent_%d'` is modelled with a decimal formatter and its parser (module
  `SentenceIds`). Their round trip proves that the identifiers are distinct.
  Because of that, in a `sent_last` run every training identifier is counted
  exactly once. A test sentence gets count 1 when the training split has a
  sentence at the same position, and 0 otherwise (module `RunStatistics`).

The helpers the script calls are defined in modules outside this model:
`data_loader.load_data` and `load_aux_data`, the `repr.*` extractors,
`utils.filter_activations_by_layers`, `utils.create_tensors` and the
activation shape. They are function-valued parameters, bundled in
`Pipeline.Helpers`, so the model assumes nothing about the values they
compute. It states only which helper is called, with which arguments, and how
the results are threaded. For example, the test tensors are built with the
mappings the training build returned. A loader may change the split's
activation list in place, for example by truncating long sentences. The
script goes on using that same list at lines 50-76. So a loader here returns
the list as it leaves it together with the token data, and everything after
the load reads that returned list.

## Model

| member | source | states |
|---|---|---|
| `Corpus.FlattenLength` | train_classifier.py:40-47 | the sum of the sentence lengths (`TotalLength`, the `sum([len(t) for t in …])` of lines 40, 44 and 47) equals the number of tokens the nested loops visit |
| `Corpus.FlattenMembership` | train_classifier.py:150-151 | a token is visited by the nested loops exactly when some sentence contains it |
| `Tallies.TallyMeaning` | train_classifier.py:149-152 | the incrementally built dictionary has as keys exactly the elements seen, and each value is that element's number of occurrences, at least 1 |
| `Tallies.TallySnoc` | train_classifier.py:152 | one loop step `counts[t] = counts.get(t, 0) + 1` (`Get` is `.get(t, 0)`) extends the tally of the tokens seen so far by one token |
| `Tallies.SeenCountsSnoc` | train_classifier.py:162 | one loop step `counts[t] = train_counts.get(t, 0)` (via `Get`) extends the test dictionary of the tokens seen so far by one token |
| `Tallies.SeenCountsRepeat` | train_classifier.py:159-162 | a test token that occurs again does not change `token_counts`: the line assigns, it does not add |
| `Tallies.TallySum` | train_classifier.py:149-152 | the counts of a tally add up to the number of tallied tokens |
| `Tallies.SentenceTally` | train_classifier.py:149-157 | a dictionary equal to the tally of a split has as keys exactly the tokens some sentence holds, each value is the token's occurrence count across all sentences (at least 1), and the values add up to the split's total length |
| `Tallies.SentenceSeenCounts` | train_classifier.py:159-162 | a dictionary built from a test split has as keys exactly the tokens some test sentence holds, each mapped to its training count, or 0 |
| `Statistics.CountTokens` | train_classifier.py:149-157 | the nested counting loop yields exactly the tally of the flattened sentences (whose keys and values `Tallies.SentenceTally` characterises), and its values sum to the total length |
| `Statistics.CountTestTokens` | train_classifier.py:159-162 | the test loop yields exactly the training-frequency dictionary of the flattened test tokens (characterised by `Tallies.SentenceSeenCounts`) |
| `Statistics.ComputeStatistics` | train_classifier.py:148-162 | `label_counts` and `token_train_counts` have as keys exactly the labels and tokens that occur in the training split, each mapped to its number of occurrences, and sum to the total lengths; `token_counts` has as keys exactly the test tokens, each mapped to its training occurrence count, which is 0 if training never saw it |
| `SentenceIds.Decimal` | train_classifier.py:68 | `%d` yields a non-empty string of decimal digits without a leading zero |
| `SentenceIds.DecimalRoundTrip` | train_classifier.py:68 | reading the formatted number back gives the number |
| `SentenceIds.DecimalInjective` | train_classifier.py:68 | different numbers format differently |
| `SentenceIds.SentIdInjective` | train_classifier.py:68-69 | different sentence positions get different identifiers `SentId(i)`, the `'sent_%d' % i` of line 68 |
| `SentenceIds.SentSources` | train_classifier.py:68-69 | the relabelled sources have one entry per sentence, and entry `i` is the one-token list `[sent_<i>]` |
| `SentenceIds.FlattenSentSources` | train_classifier.py:68-69 | the flattened relabelled sources are `sent_0`, `sent_1`, … in order |
| `SentenceIds.SentSourcesLength` | train_classifier.py:68-69 | every relabelled sentence contributes exactly one source token |
| `SentenceIds.SentSourcesTally` | train_classifier.py:154-157 | counting relabelled sources yields exactly the `n` identifiers, each with count 1 |
| `SentenceIds.SentSourcesTokens` | train_classifier.py:68-69 | the tokens of the relabelled sources are exactly the identifiers of their sentences |
| `SentenceIds.SentSourcesSeenCounts` | train_classifier.py:159-162 | for relabelled sources, test sentence `i` gets count 1 if `i` is below the number of training sentences, else 0 |
| `Pipeline.SelectLoader` | train_classifier.py:33-38 | `word`, `charcnn` and `sent_last` use `load_data`, with sentence classification only for `sent_last`; every other mode uses `load_aux_data` |
| `Pipeline.SelectExtractor` | train_classifier.py:53-67 | `word` and `charcnn` apply no extractor; each other mode applies the extractor of its own mode, and only the `*_last` ones pass on `is_brnn` |
| `Pipeline.LoaderMatchesExtractor` | train_classifier.py:43-45 | the auxiliary loader is used exactly for the modes whose extractor aligns sub-tokens, and exactly then is the auxiliary total computed (`CountsAuxTokens`, the test of line 43) |
| `Pipeline.ExtractorsDistinct` | train_classifier.py:53-67 | no two modes share an extractor |
| `Pipeline.ExtractSplit` | train_classifier.py:53-69 | per split, `word`/`charcnn` leave tokens and activations unchanged; other modes replace activations by their extractor's output; only `sent_last` changes the sources, to one `sent_<i>` per extracted entry; targets and auxiliary tokens never change |
| `Pipeline.PrepareTensors` | train_classifier.py:23-83 | both splits are read by the selected loader (`Load`, lines 34-38), and everything after that uses the activation list as the loader left it; fails exactly when that training list is empty; `NUM_NEURONS` comes from its first matrix; totals are taken on the loaded data; the auxiliary total exists exactly when `CountsAuxTokens` holds; both splits are extracted by the same rule; the layer filter (width 500, 2 directions) runs exactly when `FiltersLayers` holds, i.e. `if filter_layers:` of line 72 (absent or empty means no filter); test tensors are built with the training build's mappings |
| `RunStatistics.LabelCountsSumToNumTokens` | train_classifier.py:40 | the label counts of a run add up to `NUM_TOKENS` |
| `RunStatistics.TokenCountsSumToNumSourceTokens` | train_classifier.py:47 | the train token counts add up to `NUM_SOURCE_TOKENS`, except in `sent_last`, where they add up to the number of training sentences |
| `RunStatistics.RelabelledSources` | train_classifier.py:68-69 | the sources after `sent_last` extraction are exactly the identifier list for their sentence count |
| `RunStatistics.SentLastTokenCounts` | train_classifier.py:159-162 | in a `sent_last` run each training identifier has count 1, and test sentence `i` has count 1 when training has a sentence at position `i`, else 0 |

## Left out

- Argument parsing, directory creation, `print`, and the pickle and JSON output (lines 93-135, 164-187) are I/O. The seven experiment types are a datatype. Other strings that `--exp-type` rejects are not modelled.
- The bodies of `load_activations`, `load_data`, `load_aux_data`, the extractors, `filter_activations_by_layers` and `create_tensors` are not part of this model. They are parameters. Their own failures (for example a count mismatch inside a loader) are not modelled, so a loader is a total function here.
- Activations are read by `load_activations` (lines 28-29) before the modelled code starts. The model receives the already-loaded activation lists.
- `Pipeline.PrepareTensors`: only the loaders are modelled as changing a list passed to them. The extractors, `filter_activations_by_layers` and `create_tensors` are modelled as returning their results and leaving the token dictionaries and activation lists they receive unchanged. A helper that changed them in place would not be captured.
- `NUM_NEURONS` is the caller-supplied `neurons` of the first training matrix. Array shapes are not modelled.
- Logistic-regression training and accuracy evaluation (lines 86-88) are floating-point numerics in a module outside this model. `PrepareTensors` stops at the two tensor builds and returns the mappings unpacked at line 83. Those are the mappings returned by the test build.
- Python dictionaries keep insertion order, and the JSON files list keys in first-seen order. Dafny maps are unordered, so that order is not captured.
- `--is-bidirectional` is given to the model as a plain boolean. How argparse converts the flag's string is not modelled.
