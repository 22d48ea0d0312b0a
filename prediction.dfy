/** Result selection of `predict_from_file` in backend/api.py: the first
    index of the maximum (`np.argmax`), the label at that index, and the
    `all_confidences` dictionary built from `zip(labels, predictions)`. */
module Prediction {
  import opened Wrappers
  import opened Preprocessing

  /** A Python dict with string keys, as its entries in insertion order. */
  type Dict<V> = seq<(string, V)>

  datatype PredictionResult = PredictionResult(predictedLabel: string, confidence: real, allConfidences: Dict<real>)

  /** The two ways `predict_from_file` can raise: the HTTPException(400)
      for audio it cannot process, and any other exception (an index out of
      range, an empty prediction vector, a failing classifier). */
  datatype RequestError = Unprocessable | Raised

  /** The classifier, a black box: a batch of probability vectors, or
      `None` when `model.predict` raises. */
  type Classifier = Tensor -> Option<seq<seq<real>>>

  /** `i` is the first index holding the maximum of `p`. */
  predicate IsFirstMax(p: seq<real>, i: nat)
  {
    && i < |p|
    && (forall j :: 0 <= j < |p| ==> p[j] <= p[i])
    && (forall j :: 0 <= j < i ==> p[j] < p[i])
  }

  /** `np.argmax`: ties go to the first occurrence. */
  function ArgMax(p: seq<real>): (i: nat)
    requires |p| > 0
    ensures IsFirstMax(p, i)
  {
    if |p| == 1 then 0
    else
      var k := ArgMax(p[..|p| - 1]);
      if p[|p| - 1] > p[k] then |p| - 1 else k
  }

  /** There is only one first maximum, so ArgMax is the one. */
  lemma FirstMaxUnique(p: seq<real>, i: nat)
    requires IsFirstMax(p, i)
    ensures ArgMax(p) == i
  {
  }

  /** Python's `zip`: pairs by index and stops at the shorter sequence. */
  function Zip<A, B>(a: seq<A>, b: seq<B>): (r: seq<(A, B)>)
    ensures |r| == if |a| < |b| then |a| else |b|
    ensures forall i :: 0 <= i < |r| ==> r[i] == (a[i], b[i])
  {
    if |a| == 0 || |b| == 0 then [] else [(a[0], b[0])] + Zip(a[1..], b[1..])
  }

  function Keys<V>(d: Dict<V>): (ks: seq<string>)
    ensures |ks| == |d| && forall i :: 0 <= i < |d| ==> ks[i] == d[i].0
  {
    seq(|d|, i requires 0 <= i < |d| => d[i].0)
  }

  predicate Distinct(s: seq<string>)
  {
    forall i, j :: 0 <= i < j < |s| ==> s[i] != s[j]
  }

  /** `d[k] = v` on a dict: an existing key keeps its position and takes the
      new value, a new key is appended. */
  function Insert<V>(d: Dict<V>, k: string, v: V): (r: Dict<V>)
    ensures k !in Keys(d) ==> r == d + [(k, v)]
    ensures k in Keys(d) ==> |r| == |d| && Keys(r) == Keys(d)
    ensures k in Keys(d) ==> forall i :: 0 <= i < |d| ==> r[i].1 == if d[i].0 == k then v else d[i].1
  {
    if |d| == 0 then [(k, v)]
    else if d[0].0 == k then
      var rest := Insert(d[1..], k, v);
      assert Keys(d[1..]) == Keys(d)[1..];
      if k in Keys(d[1..]) then [(k, v)] + rest else [(k, v)] + d[1..]
    else
      assert Keys(d[1..]) == Keys(d)[1..];
      [d[0]] + Insert(d[1..], k, v)
  }

  /** A dict comprehension over `pairs`, evaluated left to right: one entry
      per distinct key, and the last pair assigned is in the dict. */
  function FromPairs<V>(pairs: seq<(string, V)>): (r: Dict<V>)
    ensures Distinct(Keys(r))
    ensures forall x :: x in Keys(r) <==> x in Keys(pairs)
    ensures |pairs| > 0 ==> pairs[|pairs| - 1] in r
  {
    if |pairs| == 0 then []
    else
      var init := pairs[..|pairs| - 1];
      var last := pairs[|pairs| - 1];
      assert Keys(pairs) == Keys(init) + [last.0];
      InsertKeys(FromPairs(init), last.0, last.1);
      Insert(FromPairs(init), last.0, last.1)
  }

  /** Assignment adds exactly its key, keeps the keys distinct, and the
      assigned pair is then in the dict. */
  lemma InsertKeys<V>(d: Dict<V>, k: string, v: V)
    ensures forall x :: x in Keys(Insert(d, k, v)) <==> x in Keys(d) || x == k
    ensures Distinct(Keys(d)) ==> Distinct(Keys(Insert(d, k, v)))
    ensures (k, v) in Insert(d, k, v)
  {
    var r := Insert(d, k, v);
    if k in Keys(d) {
      var i :| 0 <= i < |d| && Keys(d)[i] == k;
      assert r[i].0 == Keys(r)[i] == k;
      assert r[i] == (k, v);
    } else {
      assert Keys(r) == Keys(d) + [k];
      assert r[|d|] == (k, v);
    }
  }

  /** With distinct keys the comprehension keeps every pair, in order. */
  lemma {:induction false} FromPairsDistinct<V>(pairs: seq<(string, V)>)
    requires Distinct(Keys(pairs))
    ensures FromPairs(pairs) == pairs
  {
    if |pairs| > 0 {
      var init := pairs[..|pairs| - 1];
      var last := pairs[|pairs| - 1];
      assert Keys(init) == Keys(pairs)[..|pairs| - 1];
      FromPairsDistinct(init);
      assert last.0 !in Keys(init) by {
        forall i | 0 <= i < |init| ensures Keys(init)[i] != last.0 {
          assert Keys(pairs)[i] != Keys(pairs)[|pairs| - 1];
        }
      }
      assert init + [last] == pairs;
    }
  }

  /** The confidence as a percentage; rounding to two decimals and string
      rendering are not modelled. */
  function Percent(p: real): real
  {
    p * 100.0
  }

  function Percents(ps: seq<real>): (r: seq<real>)
    ensures |r| == |ps| && forall i :: 0 <= i < |ps| ==> r[i] == Percent(ps[i])
  {
    seq(|ps|, i requires 0 <= i < |ps| => Percent(ps[i]))
  }

  /** Label, confidence and `all_confidences` from one prediction vector.
      `np.argmax` of an empty vector and `labels[i]` past the end raise. */
  function SelectResult(labels: seq<string>, predictions: seq<real>): (r: Result<PredictionResult, RequestError>)
    ensures r.Failure? ==> r.error == Raised
    ensures r.Success? <==> |predictions| > 0 && ArgMax(predictions) < |labels|
    ensures r.Success? ==>
      && r.value.predictedLabel in labels
      && |r.value.allConfidences| <= |labels|
      && |r.value.allConfidences| <= |predictions|
  {
    if |predictions| == 0 then Failure(Raised)
    else
      var i := ArgMax(predictions);
      if i >= |labels| then Failure(Raised)
      else
        var all := FromPairs(Zip(labels, Percents(predictions)));
        FromPairsLength(Zip(labels, Percents(predictions)));
        Success(PredictionResult(labels[i], Percent(predictions[i]), all))
  }

  lemma {:induction false} FromPairsLength<V>(pairs: seq<(string, V)>)
    ensures |FromPairs(pairs)| <= |pairs|
  {
    if |pairs| > 0 {
      FromPairsLength(pairs[..|pairs| - 1]);
    }
  }

  /** The reported label is the one at the first maximum, with that
      prediction as its confidence. */
  lemma SelectedLabelIsFirstMax(labels: seq<string>, predictions: seq<real>, i: nat)
    requires IsFirstMax(predictions, i) && i < |labels|
    ensures SelectResult(labels, predictions).Success?
    ensures SelectResult(labels, predictions).value.predictedLabel == labels[i]
    ensures SelectResult(labels, predictions).value.confidence == Percent(predictions[i])
  {
    FirstMaxUnique(predictions, i);
  }

  /** For distinct labels, `all_confidences` has one entry per label, in
      label order, carrying the prediction at the same index; with a
      shorter prediction vector `zip` drops the labels past its end. */
  lemma AllConfidencesInLabelOrder(labels: seq<string>, predictions: seq<real>)
    requires Distinct(labels)
    requires SelectResult(labels, predictions).Success?
    ensures var all := SelectResult(labels, predictions).value.allConfidences;
      && |all| == (if |labels| < |predictions| then |labels| else |predictions|)
      && forall k :: 0 <= k < |all| ==> all[k] == (labels[k], Percent(predictions[k]))
  {
    var z := Zip(labels, Percents(predictions));
    assert Keys(z) == labels[..|z|];
    FromPairsDistinct(z);
  }

  function Sum(s: seq<real>): real
  {
    if |s| == 0 then 0.0 else Sum(s[..|s| - 1]) + s[|s| - 1]
  }

  function Values<V>(d: Dict<V>): (vs: seq<V>)
    ensures |vs| == |d| && forall i :: 0 <= i < |d| ==> vs[i] == d[i].1
  {
    seq(|d|, i requires 0 <= i < |d| => d[i].1)
  }

  /** Scaling every probability to a percentage scales their sum by 100. */
  lemma {:induction false} SumPercents(ps: seq<real>)
    ensures Sum(Percents(ps)) == 100.0 * Sum(ps)
  {
    if |ps| > 0 {
      var init := ps[..|ps| - 1];
      SumPercents(init);
      assert Percents(ps)[..|ps| - 1] == Percents(init);
    }
  }

  /** When every prediction has a (distinct) label and the predictions sum
      to 1, the unrounded percentages of `all_confidences` sum to 100. */
  lemma ConfidencesSumTo100(labels: seq<string>, predictions: seq<real>)
    requires Distinct(labels)
    requires SelectResult(labels, predictions).Success?
    requires |predictions| <= |labels|
    requires Sum(predictions) == 1.0
    ensures Sum(Values(SelectResult(labels, predictions).value.allConfidences)) == 100.0
  {
    AllConfidencesInLabelOrder(labels, predictions);
    assert Values(SelectResult(labels, predictions).value.allConfidences) == Percents(predictions);
    SumPercents(predictions);
  }

  /** `predict_from_file`, with the extractor's output and the classifier
      as parameters: a failed extraction is the 400 error, a failing or
      empty classifier output is some other exception. */
  function PredictFromFile(mel: Option<Spectrogram>, moments: Spectrogram -> Moments, classify: Classifier,
                           labels: seq<string>, maxTimeSteps: nat): (r: Result<PredictionResult, RequestError>)
    requires mel.Some? ==> Rectangular(mel.value, N_MELS)
    ensures r == Failure(Unprocessable) <==> mel.None?
    ensures r.Success? ==> mel.Some? && r.value.predictedLabel in labels
    ensures mel.Some? ==>
      var input := PreprocessAudio(mel, maxTimeSteps, moments).value;
      r == if classify(input).None? || |classify(input).value| == 0 then Failure(Raised)
           else SelectResult(labels, classify(input).value[0])
  {
    match PreprocessAudio(mel, maxTimeSteps, moments)
    case None => Failure(Unprocessable)
    case Some(input) =>
      match classify(input)
      case None => Failure(Raised)
      case Some(batch) =>
        if |batch| == 0 then Failure(Raised) else SelectResult(labels, batch[0])
  }
}
