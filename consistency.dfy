/**
 * Properties that span the simulator, the inference API and the results panel: what the
 * panel makes of a simulated result, and where the backend's threshold and the panel's
 * buckets disagree.
 */
module Consistency {
  import opened Common
  import opened Prediction
  import opened ResultsPanel
  import opened Backend

  /** A share of the remaining mass is at most the whole remaining mass. */
  lemma ShareAtMostRemaining(w: real, wSum: real, remaining: real)
    requires 0.0 <= w <= wSum && 0.0 < wSum && 0.0 <= remaining
    ensures Share(w, wSum, remaining) <= remaining
  {
    var f := w / wSum;
    assert f * wSum == w;
    assert f <= 1.0;
    assert f * remaining <= remaining;
  }

  /** Each label the simulator did not pick gets at most the remaining mass, rounded. */
  lemma SimulatedRunnersUp(d: Draws, res: PredictionResult, i: nat)
    requires d.Valid() && i < 3
    requires res.prediction in TumorClasses && res.allProbabilities.Keys == ClassSet
    requires 0.82 <= res.allProbabilities[res.prediction] < 0.98
    requires res.allProbabilities[Others(res.prediction)[i]]
      == Round4(Share(d.weights[i], Sum(d.weights), 1.0 - res.allProbabilities[res.prediction]))
    ensures res.allProbabilities[Others(res.prediction)[i]] <= 0.18005
  {
    var remaining := 1.0 - res.allProbabilities[res.prediction];
    SumBoundsElements(d.weights, i);
    ShareAtMostRemaining(d.weights[i], Sum(d.weights), remaining);
  }

  /** The label the simulator picked outweighs every other label. */
  lemma SimulatedWinnerOutweighs(d: Draws, res: PredictionResult)
    requires d.Valid()
    requires res.prediction in TumorClasses && res.allProbabilities.Keys == ClassSet
    requires 0.82 <= res.allProbabilities[res.prediction] < 0.98
    requires var others := Others(res.prediction);
      forall i :: 0 <= i < 3 ==>
        res.allProbabilities[others[i]]
        == Round4(Share(d.weights[i], Sum(d.weights), 1.0 - res.allProbabilities[res.prediction]))
    ensures forall k :: k in res.allProbabilities && k != res.prediction ==>
      res.allProbabilities[k] < res.allProbabilities[res.prediction]
  {
    var m := res.allProbabilities;
    var others := Others(res.prediction);
    forall k | k in m && k != res.prediction
      ensures m[k] < m[res.prediction]
    {
      assert k in TumorClasses;
      var i :| 0 <= i < 3 && others[i] == k;
      SimulatedRunnersUp(d, res, i);
    }
  }

  /**
   * When one key outweighs every other, the largest-first bars start with it, whatever the
   * order of the other keys.
   */
  lemma LargestKeyLeads(m: map<string, real>, p: string, bars: seq<Entry>)
    requires p in m && Entry(p, m[p]) in bars && NonIncreasing(bars)
    requires forall i :: 0 <= i < |bars| ==> bars[i].key in m && bars[i].prob == m[bars[i].key]
    requires forall k :: k in m && k != p ==> m[k] < m[p]
    ensures bars[0] == Entry(p, m[p])
  {
    var j :| 0 <= j < |bars| && bars[j] == Entry(p, m[p]);
    assert bars[0].prob >= m[p];
  }

  /** A list without repeats stays so with a new element in front. */
  lemma DistinctCons(x: string, s: seq<string>)
    requires Distinct(s) && x !in s
    ensures Distinct([x] + s)
  {
    var order := [x] + s;
    forall i, j | 0 <= i < j < |order|
      ensures order[i] != order[j]
    {
      assert order[j] == s[j - 1];
      if i > 0 {
        assert order[i] == s[i - 1];
      }
    }
  }

  /** The simulator lists its keys once each: the winner first, then the others. */
  lemma MockKeyOrder(res: PredictionResult)
    requires res.prediction in TumorClasses && res.allProbabilities.Keys == ClassSet
    ensures IsKeyOrder([res.prediction] + Others(res.prediction), res.allProbabilities)
  {
    var others := Others(res.prediction);
    DistinctCons(res.prediction, others);
    assert forall k :: k in TumorClasses <==> k in ClassSet;
  }

  /**
   * A simulated result, shown by the panel, is a card in the Medium or High bucket whose
   * first bar, the largest, is the predicted label with its unrounded confidence.
   */
  method RenderSimulated(d: Draws) returns (res: PredictionResult, v: View)
    requires d.Valid()
    ensures IsKeyOrder([res.prediction] + Others(res.prediction), res.allProbabilities)
    ensures v == Render(Some(res), false, [res.prediction] + Others(res.prediction))
    ensures v.Card? && v.level != Low && |v.bars| == 4
    ensures v.bars[0] == Entry(res.prediction, res.allProbabilities[res.prediction])
  {
    res := MockPredict(d);
    MockKeyOrder(res);
    var order := [res.prediction] + Others(res.prediction);
    v := Render(Some(res), false, order);
    SimulatedWinnerOutweighs(d, res);
    LargestKeyLeads(res.allProbabilities, res.prediction, v.bars);
  }

  /**
   * The backend tests the threshold on the unrounded confidence and reports it rounded: a
   * top probability of 0.59996 yields the low-confidence label with confidence 0.6, which
   * the panel files under Medium.
   */
  method LowConfidenceLabelWithMediumLevel() returns (response: Result<PredictionResult, ApiError>, level: Level)
    ensures response.Ok?
    ensures response.value.prediction == LowConfidenceLabel
    ensures response.value.confidence == 0.6
    ensures level == ConfidenceLevel(response.value.confidence) && level == Medium
  {
    var upload := Upload(Some("a.png"), Some("image/png"), 1000);
    assert AfterLastDot("a.png") == "png";
    assert Lower("png") == "png";
    assert StartsWith("image/png", "image/");
    var probabilities := [0.59996, 0.4, 0.00004];
    assert ArgMax(probabilities[..2]) == 0;
    assert ArgMax(probabilities) == 0;
    response := HandlePredict(upload, true, probabilities, ["glioma", "meningioma", "notumor"]);
    assert (0.59996 * 10000.0 + 0.5).Floor == 6000;
    level := ConfidenceLevel(response.value.confidence);
  }
}
