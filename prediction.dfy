/**
 * The prediction client of the frontend: the demo-mode simulator `mockPredict` and the
 * gateway `predict` that either calls the configured inference API or falls back to it.
 * Randomness is injected: every `Math.random()` the simulator calls is a field of `Draws`.
 */
module Prediction {
  import opened Common

  /** The four labels, in the order the simulator lists them. */
  const TumorClasses: seq<string> := ["glioma", "meningioma", "pituitary", "notumor"]

  /** The same four labels as a set, written out so that proofs about map keys stay cheap. */
  const ClassSet: set<string> := {"glioma", "meningioma", "pituitary", "notumor"}

  /** The set and the list name the same labels. */
  lemma ClassSetListsTumorClasses()
    ensures ClassSet == set l | l in TumorClasses
    ensures |TumorClasses| == |ClassSet|
  {
  }

  /** The shape of a prediction, shared by the simulator and the inference API. */
  datatype PredictionResult = PredictionResult(
    prediction: string,
    confidence: real,
    allProbabilities: map<string, real>,
    gradcamUrl: Option<string>)

  /** A value `Math.random()` can return. */
  predicate IsDraw(x: real)
  {
    0.0 <= x < 1.0
  }

  /**
   * The random values one simulation consumes, in the order it draws them: one that picks
   * the label, one that places the confidence in the label's window, and one weight per
   * remaining label.
   */
  datatype Draws = Draws(pick: real, spread: real, weights: seq<real>)
  {
    predicate Valid()
    {
      && IsDraw(pick) && IsDraw(spread)
      && |weights| == 3
      && (forall i :: 0 <= i < |weights| ==> IsDraw(weights[i]))
      // three draws of exactly 0 would make the source divide 0 by 0
      && Sum(weights) > 0.0
    }
  }

  /** The first draw selects `l` exactly when it lies in [LabelFloor(l), LabelCeiling(l)). */
  function LabelFloor(l: string): real
  {
    if l == "glioma" then 0.0
    else if l == "meningioma" then 0.4
    else if l == "pituitary" then 0.65
    else if l == "notumor" then 0.85
    else 1.0
  }

  function LabelCeiling(l: string): real
  {
    if l == "glioma" then 0.4
    else if l == "meningioma" then 0.65
    else if l == "pituitary" then 0.85
    else 1.0
  }

  /** The label ranges split [0, 1) into four disjoint pieces, one per label. */
  lemma LabelRangesPartition(r: real)
    requires IsDraw(r)
    ensures exists l :: l in TumorClasses && LabelFloor(l) <= r < LabelCeiling(l)
    ensures forall l1, l2 ::
      (l1 in TumorClasses && l2 in TumorClasses &&
       LabelFloor(l1) <= r < LabelCeiling(l1) && LabelFloor(l2) <= r < LabelCeiling(l2)) ==> l1 == l2
  {
    var l := if r < 0.4 then "glioma" else if r < 0.65 then "meningioma"
             else if r < 0.85 then "pituitary" else "notumor";
    assert l in TumorClasses && LabelFloor(l) <= r < LabelCeiling(l);
  }

  /** The drawn confidence of `l` is WindowLow(l) + spread * WindowSpan(l). */
  function WindowLow(l: string): real
  {
    if l == "glioma" then 0.88
    else if l == "meningioma" then 0.82
    else if l == "pituitary" then 0.85
    else if l == "notumor" then 0.9
    else 0.0
  }

  function WindowSpan(l: string): real
  {
    if l == "glioma" then 0.1
    else if l == "meningioma" then 0.12
    else if l == "pituitary" then 0.1
    else if l == "notumor" then 0.08
    else 0.0
  }

  /** `s.filter((y) => y !== x)`. */
  function Without(s: seq<string>, x: string): (r: seq<string>)
    ensures forall y :: y in r <==> y in s && y != x
    ensures Distinct(s) ==> Distinct(r)
    ensures Distinct(s) && x in s ==> |r| == |s| - 1
    ensures x !in s ==> r == s
  {
    if |s| == 0 then []
    else if s[0] == x then Without(s[1..], x)
    else
      assert Distinct(s) ==> Distinct(s[1..]) && s[0] !in s[1..];
      [s[0]] + Without(s[1..], x)
  }

  /** Filtering out an element of a list without repeats deletes exactly its position. */
  lemma {:induction false} WithoutDeletesPosition(s: seq<string>, k: nat)
    requires Distinct(s) && k < |s|
    ensures Without(s, s[k]) == s[..k] + s[k + 1..]
  {
    if k == 0 {
      assert s[0] !in s[1..];
      assert Without(s[1..], s[0]) == s[1..];
    } else {
      assert Distinct(s[1..]);
      assert s[1..][k - 1] == s[k];
      WithoutDeletesPosition(s[1..], k - 1);
      assert s[1..][..k - 1] + s[1..][k..] == s[1..k] + s[k + 1..];
      assert [s[0]] + s[1..k] == s[..k];
    }
  }

  /** The labels that share the probability mass the winner leaves over. */
  function Others(prediction: string): (r: seq<string>)
    ensures prediction in TumorClasses ==> |r| == 3 && prediction !in r
    ensures forall y :: y in r <==> y in TumorClasses && y != prediction
    ensures forall y :: y in r ==> y in ClassSet
    ensures Distinct(r)
  {
    assert Distinct(TumorClasses);
    Without(TumorClasses, prediction)
  }

  /** The part of `remaining` one weight gets: `(w / wSum) * remaining`. */
  function Share(w: real, wSum: real, remaining: real): real
    requires wSum != 0.0
  {
    (w / wSum) * remaining
  }

  function Shares(ws: seq<real>, wSum: real, remaining: real): (r: seq<real>)
    requires wSum != 0.0
    ensures |r| == |ws|
  {
    seq(|ws|, i requires 0 <= i < |ws| => Share(ws[i], wSum, remaining))
  }

  /** One step of the sum of shares: adding a weight's share adds that weight to the shared total. */
  lemma ShareAdds(total: real, prefix: real, a: real, b: real, wSum: real, remaining: real)
    requires wSum != 0.0
    requires prefix == a / wSum * remaining
    requires total == prefix + (b / wSum) * remaining
    ensures total == (a + b) / wSum * remaining
  {
    assert (a + b) / wSum == a / wSum + b / wSum;
  }

  /** Normalising by the weights' own sum hands out the remaining mass exactly. */
  lemma {:induction false} SharesSum(ws: seq<real>, wSum: real, remaining: real)
    requires wSum != 0.0
    ensures Sum(Shares(ws, wSum, remaining)) == Sum(ws) / wSum * remaining
  {
    if |ws| > 0 {
      var n := |ws| - 1;
      var xs := Shares(ws, wSum, remaining);
      var ys := Shares(ws[..n], wSum, remaining);
      assert xs[..n] == ys by {
        forall k | 0 <= k < n
          ensures xs[..n][k] == ys[k]
        {
          assert ws[..n][k] == ws[k];
        }
      }
      assert Sum(xs) == Sum(ys) + Share(ws[n], wSum, remaining);
      SharesSum(ws[..n], wSum, remaining);
      ShareAdds(Sum(xs), Sum(ys), Sum(ws[..n]), ws[n], wSum, remaining);
      assert Sum(ws) == Sum(ws[..n]) + ws[n];
    }
  }

  lemma SharesNonNegative(ws: seq<real>, wSum: real, remaining: real, i: nat)
    requires wSum > 0.0 && 0.0 <= remaining
    requires i < |ws| && 0.0 <= ws[i]
    ensures 0.0 <= Share(ws[i], wSum, remaining)
  {
    assert 0.0 <= ws[i] / wSum;
  }

  /** Sum of the values of `m` at `labels`, left to right. */
  function TotalOver(m: map<string, real>, labels: seq<string>): real
    requires forall l :: l in labels ==> l in m
  {
    if |labels| == 0 then 0.0 else TotalOver(m, labels[..|labels| - 1]) + m[labels[|labels| - 1]]
  }

  /**
   * When every value after the first is within half a unit of the fourth decimal of `xs`, the
   * total strays from the exact one by at most one half-unit per value.
   */
  lemma {:induction false} RoundedTotal(m: map<string, real>, first: string, labels: seq<string>, xs: seq<real>)
    requires first in m && (forall l :: l in labels ==> l in m)
    requires |labels| == |xs|
    requires forall i :: 0 <= i < |labels| ==> -0.00005 <= m[labels[i]] - xs[i] <= 0.00005
    ensures -(|labels| as real) * 0.00005 <= TotalOver(m, [first] + labels) - (m[first] + Sum(xs)) <= (|labels| as real) * 0.00005
  {
    if |labels| > 0 {
      var n := |labels| - 1;
      assert ([first] + labels)[..n + 1] == [first] + labels[..n];
      RoundedTotal(m, first, labels[..n], xs[..n]);
    }
  }

  /** The winner together with the other labels is the whole label set. */
  lemma OthersCoverClasses(prediction: string)
    requires prediction in TumorClasses
    ensures {prediction} + (set j | 0 <= j < |Others(prediction)| :: Others(prediction)[j]) == ClassSet
  {
    var others := Others(prediction);
    forall l | l in ClassSet
      ensures l in {prediction} + (set j | 0 <= j < |others| :: others[j])
    {
      if l != prediction {
        assert l in others;
        var j :| 0 <= j < |others| && others[j] == l;
      }
    }
  }

  /** Rounded shares of non-negative weights are non-negative. */
  lemma ResidualsNonNegative(probs: map<string, real>, prediction: string, others: seq<string>, weights: seq<real>, remaining: real)
    requires Sum(weights) > 0.0 && 0.0 <= remaining && |others| == |weights|
    requires forall j :: 0 <= j < |weights| ==> 0.0 <= weights[j]
    requires probs.Keys == {prediction} + (set j | 0 <= j < |others| :: others[j])
    requires forall j :: 0 <= j < |others| ==> probs[others[j]] == Round4(Share(weights[j], Sum(weights), remaining))
    requires 0.0 <= probs[prediction]
    ensures forall l :: l in probs ==> 0.0 <= probs[l]
  {
    forall l | l in probs ensures 0.0 <= probs[l] {
      if l != prediction {
        var j :| 0 <= j < |others| && others[j] == l;
        SharesNonNegative(weights, Sum(weights), remaining, j);
        Round4NonNegative(Share(weights[j], Sum(weights), remaining));
      }
    }
  }

  lemma NormalisedWhole(wSum: real, remaining: real)
    requires wSum > 0.0
    ensures wSum / wSum * remaining == remaining
  {
  }

  /** Shares each known to within half a unit of the fourth decimal add up to the remaining mass, up to one half-unit per share. */
  lemma ResidualMass(probs: map<string, real>, prediction: string, others: seq<string>, weights: seq<real>, remaining: real)
    requires Sum(weights) > 0.0 && |others| == |weights|
    requires prediction in probs && forall l :: l in others ==> l in probs
    requires forall j :: 0 <= j < |others| ==>
      -0.00005 <= probs[others[j]] - Share(weights[j], Sum(weights), remaining) <= 0.00005
    ensures var total := TotalOver(probs, [prediction] + others);
      -(|others| as real) * 0.00005 <= total - (probs[prediction] + remaining) <= (|others| as real) * 0.00005
  {
    var wSum := Sum(weights);
    var xs := Shares(weights, wSum, remaining);
    assert Sum(xs) == remaining by {
      SharesSum(weights, wSum, remaining);
      NormalisedWhole(wSum, remaining);
    }
    RoundedTotal(probs, prediction, others, xs);
  }

  /**
   * The `others.forEach` step of `mockPredict`: starting from `{ [prediction]: confidence }`,
   * each other label gets its weight's share of `1 - confidence`, rounded to 4 decimals.
   */
  method FillResiduals(prediction: string, confidence: real, weights: seq<real>) returns (probs: map<string, real>)
    requires prediction in TumorClasses && 0.0 <= confidence <= 1.0
    requires |weights| == 3 && Sum(weights) > 0.0
    requires forall i :: 0 <= i < |weights| ==> 0.0 <= weights[i]
    ensures probs.Keys == ClassSet
    ensures probs[prediction] == confidence
    ensures var others := Others(prediction);
      forall i :: 0 <= i < 3 ==>
        probs[others[i]] == Round4(Share(weights[i], Sum(weights), 1.0 - confidence))
    ensures forall l :: l in probs ==> 0.0 <= probs[l]
    ensures var total := TotalOver(probs, [prediction] + Others(prediction));
      -3.0 * 0.00005 <= total - 1.0 <= 3.0 * 0.00005
  {
    var remaining := 1.0 - confidence;
    var others := Others(prediction);
    var wSum := Sum(weights);
    probs := map[prediction := confidence];
    var i := 0;
    while i < |others|
      invariant 0 <= i <= |others|
      invariant probs.Keys == {prediction} + (set j | 0 <= j < i :: others[j])
      invariant probs[prediction] == confidence
      invariant forall j :: 0 <= j < i ==> probs[others[j]] == Round4(Share(weights[j], wSum, remaining))
    {
      probs := probs[others[i] := Round4(Share(weights[i], wSum, remaining))];
      i := i + 1;
    }
    OthersCoverClasses(prediction);
    ResidualsNonNegative(probs, prediction, others, weights, remaining);
    ResidualMass(probs, prediction, others, weights, remaining);
  }

  /**
   * What `mockPredict` promises about the result it builds from the draws `d`: the label and
   * confidence the first two draws choose, and the rest of the mass shared out by the weights.
   */
  predicate Simulates(d: Draws, res: PredictionResult)
    requires d.Valid()
  {
    DrawnWinner(d, res) && SharedRest(d, res)
  }

  /**
   * The label is the one whose range holds the first draw; its entry is its window's low end
   * plus the second draw times the window's span; the reported confidence is that entry
   * rounded; the keys are the four labels; and there is no Grad-CAM image.
   */
  predicate DrawnWinner(d: Draws, res: PredictionResult)
  {
    && res.prediction in TumorClasses
    && LabelFloor(res.prediction) <= d.pick < LabelCeiling(res.prediction)
    && res.allProbabilities.Keys == ClassSet
    && res.allProbabilities[res.prediction] == WindowLow(res.prediction) + d.spread * WindowSpan(res.prediction)
    && 0.82 <= res.allProbabilities[res.prediction] < 0.98
    && res.confidence == Round4(res.allProbabilities[res.prediction])
    && 0.82 <= res.confidence <= 0.98
    && res.gradcamUrl == None
  }

  /**
   * Each other label gets its weight's share of what the winner leaves, rounded; no value is
   * negative; and the total is 1 up to the rounding.
   */
  predicate SharedRest(d: Draws, res: PredictionResult)
    requires d.Valid()
  {
    var m := res.allProbabilities;
    var others := Others(res.prediction);
    && res.prediction in m
    && |others| == 3
    && (forall l :: l in others ==> l in m)
    && (forall i :: 0 <= i < 3 ==>
          m[others[i]] == Round4(Share(d.weights[i], Sum(d.weights), 1.0 - m[res.prediction])))
    && (forall l :: l in m ==> 0.0 <= m[l])
    && (var total := TotalOver(m, [res.prediction] + others);
        -3.0 * 0.00005 <= total - 1.0 <= 3.0 * 0.00005)
  }

  /**
   * The first part of `mockPredict`: the first draw picks the label, the second places the
   * confidence in the label's window.
   */
  method DrawLabel(pick: real, spread: real) returns (prediction: string, confidence: real)
    requires IsDraw(pick) && IsDraw(spread)
    ensures prediction in TumorClasses
    ensures LabelFloor(prediction) <= pick < LabelCeiling(prediction)
    ensures confidence == WindowLow(prediction) + spread * WindowSpan(prediction)
    ensures 0.82 <= confidence < 0.98
  {
    if pick < 0.4 {
      prediction := "glioma";
      confidence := 0.88 + spread * 0.1;
    } else if pick < 0.65 {
      prediction := "meningioma";
      confidence := 0.82 + spread * 0.12;
    } else if pick < 0.85 {
      prediction := "pituitary";
      confidence := 0.85 + spread * 0.1;
    } else {
      prediction := "notumor";
      confidence := 0.9 + spread * 0.08;
    }
  }

  /**
   * `mockPredict`: the first draw picks the label, the second places the confidence in the
   * label's window, and the rest of the mass goes to the other labels in proportion to
   * their weights, each rounded to 4 decimals. The winner's entry keeps the unrounded
   * confidence; only the reported `confidence` is rounded.
   */
  method MockPredict(d: Draws) returns (res: PredictionResult)
    requires d.Valid()
    ensures Simulates(d, res)
  {
    var prediction, confidence := DrawLabel(d.pick, d.spread);
    var probs := FillResiduals(prediction, confidence, d.weights);
    res := PredictionResult(prediction, Round4(confidence), probs, None);
    DrawnWinnerResult(d, prediction, confidence, probs);
  }

  /** The label and window draw, with the rounded confidence, is the winner part of a simulation of `d`. */
  lemma DrawnWinnerResult(d: Draws, prediction: string, confidence: real, probs: map<string, real>)
    requires prediction in TumorClasses
    requires LabelFloor(prediction) <= d.pick < LabelCeiling(prediction)
    requires confidence == WindowLow(prediction) + d.spread * WindowSpan(prediction)
    requires 0.82 <= confidence < 0.98
    requires probs.Keys == ClassSet && probs[prediction] == confidence
    ensures DrawnWinner(d, PredictionResult(prediction, Round4(confidence), probs, None))
  {
    Round4Between(confidence, 8200, 9800);
  }

  /**
   * The winner's stored entry and the reported confidence are different values: with the
   * draws below the entry is 0.880005 while the confidence reads 0.88.
   */
  method UnroundedEntryWitness() returns (res: PredictionResult)
    ensures res.prediction == "glioma" && res.prediction in res.allProbabilities
    ensures res.allProbabilities[res.prediction] == 0.880005
    ensures res.confidence == 0.88
    ensures res.allProbabilities[res.prediction] != res.confidence
  {
    var d := Draws(0.0, 0.00005, [0.5, 0.5, 0.5]);
    assert d.weights[..2][..1] == [0.5] && d.weights[..2] == [0.5, 0.5];
    assert Sum([0.5]) == 0.5;
    assert Sum([0.5, 0.5]) == 1.0;
    assert Sum(d.weights) == 1.5;
    res := MockPredict(d);
    assert (0.880005 * 10000.0 + 0.5).Floor == 8800;
  }

  /** What the inference API answered: whether the status was 2xx, and the parsed body. */
  datatype Response = Response(ok: bool, body: PredictionResult)

  /** The one upload the gateway sends: the URL it posts to and the form field holding the file. */
  datatype Request = Request(url: string, field: string)

  datatype Outcome = Resolved(result: PredictionResult) | Rejected(message: string)

  const PredictionFailed: string := "Prediction failed"

  /**
   * `predict`: without a configured API URL it simulates; otherwise it posts the file once
   * and passes a 2xx body through unchecked, rejecting any other status.
   */
  method Predict(apiUrl: string, d: Draws, response: Response) returns (out: Outcome, sent: Option<Request>)
    requires apiUrl == "" ==> d.Valid()
    ensures apiUrl == "" <==> sent.None?
    ensures apiUrl == "" ==> out.Resolved? && Simulates(d, out.result)
    ensures apiUrl != "" ==> sent == Some(Request(apiUrl + "/predict", "file"))
    ensures apiUrl != "" && response.ok ==> out == Resolved(response.body)
    ensures apiUrl != "" && !response.ok ==> out == Rejected(PredictionFailed)
  {
    if apiUrl == "" {
      var simulated := MockPredict(d);
      return Resolved(simulated), None;
    }
    sent := Some(Request(apiUrl + "/predict", "file"));
    if !response.ok {
      return Rejected(PredictionFailed), sent;
    }
    out := Resolved(response.body);
  }
}
