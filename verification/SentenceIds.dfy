/** The synthetic per-sentence source tokens of sentence-level experiments:
    sentence `i` becomes the single token `'sent_%d' % i`. */
module SentenceIds {
  import opened Corpus
  import opened Tallies

  predicate IsDigit(c: char)
  {
    '0' <= c <= '9'
  }

  /** `'%d' % n` for a natural number: most significant digit first, no
      leading zeros. */
  function Decimal(n: nat): (s: string)
    ensures |s| >= 1
    ensures forall k :: 0 <= k < |s| ==> IsDigit(s[k])
    ensures |s| > 1 ==> s[0] != '0'
  {
    if n < 10 then [('0' as int + n) as char]
    else Decimal(n / 10) + [('0' as int + n % 10) as char]
  }

  function DigitValue(c: char): nat
    requires IsDigit(c)
  {
    c as int - '0' as int
  }

  /** Reads a string of decimal digits back as a number. */
  function ParseDecimal(s: string): nat
    requires forall k :: 0 <= k < |s| ==> IsDigit(s[k])
  {
    if s == [] then 0
    else ParseDecimal(s[..|s| - 1]) * 10 + DigitValue(s[|s| - 1])
  }

  /** Formatting a number and reading it back gives the number. */
  lemma {:induction false} DecimalRoundTrip(n: nat)
    ensures ParseDecimal(Decimal(n)) == n
  {
    var s := Decimal(n);
    if n >= 10 {
      DecimalRoundTrip(n / 10);
      assert s[..|s| - 1] == Decimal(n / 10);
    }
  }

  /** Different numbers are formatted differently. */
  lemma DecimalInjective(m: nat, n: nat)
    requires Decimal(m) == Decimal(n)
    ensures m == n
  {
    DecimalRoundTrip(m);
    DecimalRoundTrip(n);
  }

  /** The source token that stands for sentence `i`. */
  function SentId(i: nat): string
  {
    "sent_" + Decimal(i)
  }

  /** Different sentences get different identifiers. */
  lemma SentIdInjective(i: nat, j: nat)
    requires SentId(i) == SentId(j)
    ensures i == j
  {
    assert SentId(i)[5..] == Decimal(i);
    assert SentId(j)[5..] == Decimal(j);
    DecimalInjective(i, j);
  }

  /** `[['sent_%d' % (i)] for i in range(n)]`: one sentence per position,
      each holding only its own identifier. */
  function SentSources(n: nat): (r: seq<seq<string>>)
    ensures |r| == n
    ensures forall i :: 0 <= i < n ==> r[i] == [SentId(i)]
  {
    if n == 0 then [] else SentSources(n - 1) + [[SentId(n - 1)]]
  }

  /** The flattened identifier sources are the identifiers in order. */
  lemma {:induction false} FlattenSentSources(n: nat)
    ensures |Flatten(SentSources(n))| == n
    ensures forall i :: 0 <= i < n ==> Flatten(SentSources(n))[i] == SentId(i)
  {
    if n > 0 {
      var ss, prev := SentSources(n), Flatten(SentSources(n - 1));
      FlattenSentSources(n - 1);
      assert ss == SentSources(n - 1) + [[SentId(n - 1)]];
      assert ss[..n - 1] == SentSources(n - 1);
      assert Flatten(ss) == prev + [SentId(n - 1)];
    }
  }

  /** Every relabelled sentence contributes exactly one source token. */
  lemma SentSourcesLength(n: nat)
    ensures TotalLength(SentSources(n)) == n
  {
    FlattenSentSources(n);
    FlattenLength(SentSources(n));
  }

  /** Counting the tokens of the relabelled sources (the `token_train_counts`
      loop) yields exactly the identifiers of the `n` sentences, each once. */
  lemma SentSourcesTally(n: nat)
    ensures forall t :: t in Tally(Flatten(SentSources(n))) <==>
              exists i :: 0 <= i < n && t == SentId(i)
    ensures forall i :: 0 <= i < n ==>
              SentId(i) in Tally(Flatten(SentSources(n))) &&
              Tally(Flatten(SentSources(n)))[SentId(i)] == 1
  {
    var xs := Flatten(SentSources(n));
    FlattenSentSources(n);
    forall i, j | 0 <= i < j < |xs|
      ensures xs[i] != xs[j]
    {
      if xs[i] == xs[j] {
        SentIdInjective(i, j);
      }
    }
    forall t
      ensures t in Tally(xs) <==> exists i :: 0 <= i < n && t == SentId(i)
    {
      TallyMeaning(xs, t);
    }
    forall i | 0 <= i < n
      ensures SentId(i) in Tally(xs) && Tally(xs)[SentId(i)] == 1
    {
      TallyMeaning(xs, SentId(i));
      OccurrencesDistinct(xs, i);
    }
  }

  /** The tokens of the relabelled sources are exactly the identifiers of
      their `n` sentences. */
  lemma SentSourcesTokens(n: nat, t: string)
    ensures t in Flatten(SentSources(n)) <==> exists i :: 0 <= i < n && t == SentId(i)
  {
    var xs := Flatten(SentSources(n));
    FlattenSentSources(n);
    if t in xs {
      var k :| 0 <= k < |xs| && xs[k] == t;
      assert t == SentId(k);
    }
  }

  /** The test `token_counts` of a sentence-level run: with `nTrain` training
      sentences, test sentence `i` gets count 1 when `i < nTrain` (an identifier
      with the same position exists in training) and 0 otherwise. */
  lemma SentSourcesSeenCounts(nTrain: nat, nTest: nat, i: nat)
    requires i < nTest
    ensures SentId(i) in SeenCounts(Tally(Flatten(SentSources(nTrain))), Flatten(SentSources(nTest)))
    ensures SeenCounts(Tally(Flatten(SentSources(nTrain))), Flatten(SentSources(nTest)))[SentId(i)]
            == if i < nTrain then 1 else 0
  {
    var train := Tally(Flatten(SentSources(nTrain)));
    SentSourcesTokens(nTest, SentId(i));
    SentSourcesTally(nTrain);
    if i >= nTrain && SentId(i) in train {
      var j :| 0 <= j < nTrain && SentId(i) == SentId(j);
      SentIdInjective(i, j);
    }
  }
}
