/**
 * The results panel: how a prediction is shown. It picks one of three views, buckets the
 * confidence, names and colours each label, and lists the probabilities largest first.
 */
module ResultsPanel {
  import opened Common
  import opened Prediction

  /** The three confidence buckets, with the text and colour each is shown with. */
  datatype Level = High | Medium | Low
  {
    function Label(): string
    {
      match this
      case High => "High Confidence"
      case Medium => "Medium Confidence"
      case Low => "Low Confidence"
    }

    function Color(): string
    {
      match this
      case High => "text-success"
      case Medium => "text-warning"
      case Low => "text-destructive"
    }

    function Description(): string
    {
      match this
      case High => "The model is highly confident in this classification."
      case Medium => "Moderate confidence — clinical verification recommended."
      case Low => "Low confidence — manual review strongly recommended."
    }

    /** Position in the order Low < Medium < High. */
    function Rank(): nat
    {
      match this
      case Low => 0
      case Medium => 1
      case High => 2
    }
  }

  /** The three buckets are told apart by their text, their colour and their explanation alike. */
  lemma LevelPresentationDistinct(a: Level, b: Level)
    requires a != b
    ensures a.Label() != b.Label() && a.Color() != b.Color() && a.Description() != b.Description()
  {
  }

  /** `getConfidenceLevel`: every confidence falls in exactly one bucket. */
  function ConfidenceLevel(c: real): (level: Level)
    ensures level == High <==> 0.85 <= c
    ensures level == Medium <==> 0.6 <= c < 0.85
    ensures level == Low <==> c < 0.6
  {
    if c >= 0.85 then High
    else if c >= 0.6 then Medium
    else Low
  }

  /** A higher confidence never lands in a lower bucket. */
  lemma ConfidenceLevelMonotone(c1: real, c2: real)
    requires c1 <= c2
    ensures ConfidenceLevel(c1).Rank() <= ConfidenceLevel(c2).Rank()
  {
  }

  const DisplayNames: map<string, string> := map[
    "glioma" := "Glioma",
    "meningioma" := "Meningioma",
    "pituitary" := "Pituitary",
    "notumor" := "No Tumor",
    "Low Confidence Prediction" := "Low Confidence"]

  /** `displayName`: the known labels get their fixed names, any other label is shown as it is. */
  function DisplayName(l: string): (name: string)
    ensures l in DisplayNames ==> name == DisplayNames[l]
    ensures l !in DisplayNames ==> name == l
  {
    // `map[label] || label`: a lookup that misses, or hits an empty name, falls back to the label
    if l in DisplayNames && DisplayNames[l] != "" then DisplayNames[l] else l
  }

  /** The four classes are shown under four different names. */
  lemma DisplayNamesDistinct(l1: string, l2: string)
    requires l1 in TumorClasses && l2 in TumorClasses && l1 != l2
    ensures DisplayName(l1) != DisplayName(l2)
  {
  }

  const BarColors: map<string, string> := map[
    "glioma" := "bg-destructive",
    "meningioma" := "bg-warning",
    "pituitary" := "bg-info",
    "notumor" := "bg-success"]

  const DefaultBarColor: string := "bg-primary"

  /** `barColor`: a class colour for the four classes, the default colour for anything else. */
  function BarColor(l: string): (color: string)
    ensures l in BarColors ==> color == BarColors[l]
    ensures color == DefaultBarColor <==> l !in ClassSet
  {
    if l in BarColors && BarColors[l] != "" then BarColors[l] else DefaultBarColor
  }

  /** The four classes get four different bar colours. */
  lemma BarColorsDistinct(l1: string, l2: string)
    requires l1 in TumorClasses && l2 in TumorClasses && l1 != l2
    ensures BarColor(l1) != BarColor(l2)
  {
  }

  /** One `[label, probability]` pair of `Object.entries(result.all_probabilities)`. */
  datatype Entry = Entry(key: string, prob: real)
  {
    function Name(): string
    {
      DisplayName(key)
    }

    function Color(): string
    {
      BarColor(key)
    }
  }

  /** Bars of two different classes differ both in the name they show and in their colour. */
  lemma ClassBarsDistinguishable(e1: Entry, e2: Entry)
    requires e1.key in TumorClasses && e2.key in TumorClasses && e1.key != e2.key
    ensures e1.Name() != e2.Name() && e1.Color() != e2.Color()
  {
    DisplayNamesDistinct(e1.key, e2.key);
    BarColorsDistinct(e1.key, e2.key);
  }

  predicate NonIncreasing(s: seq<Entry>)
  {
    forall i, j :: 0 <= i < j < |s| ==> s[i].prob >= s[j].prob
  }

  /**
   * Puts `e` in front of the first entry it is at least as large as, so that `e` stays
   * ahead of later entries of equal probability.
   */
  function Insert(e: Entry, s: seq<Entry>): (r: seq<Entry>)
    requires NonIncreasing(s)
    ensures NonIncreasing(r)
    ensures multiset(r) == multiset(s) + multiset{e}
  {
    if |s| == 0 || e.prob >= s[0].prob then [e] + s
    else
      var rest := Insert(e, s[1..]);
      assert s == [s[0]] + s[1..];
      HeadDominates(s[0], e, s[1..], rest);
      [s[0]] + rest
  }

  /** An entry at least as large as `e` and as everything in `tail` is at least as large as any rearrangement of them. */
  lemma HeadDominates(top: Entry, e: Entry, tail: seq<Entry>, rest: seq<Entry>)
    requires forall k :: 0 <= k < |tail| ==> top.prob >= tail[k].prob
    requires top.prob >= e.prob
    requires multiset(rest) == multiset(tail) + multiset{e}
    ensures forall k :: 0 <= k < |rest| ==> top.prob >= rest[k].prob
  {
    forall k | 0 <= k < |rest|
      ensures top.prob >= rest[k].prob
    {
      assert rest[k] in multiset(rest);
      if rest[k] != e {
        assert rest[k] in multiset(tail);
        var j :| 0 <= j < |tail| && tail[j] == rest[k];
      }
    }
  }

  /** `entries.sort((a, b) => b[1] - a[1])`: the same entries, largest probability first. */
  function SortByProbability(s: seq<Entry>): (r: seq<Entry>)
    ensures NonIncreasing(r)
    ensures multiset(r) == multiset(s)
  {
    if |s| == 0 then []
    else
      assert s == [s[0]] + s[1..];
      Insert(s[0], SortByProbability(s[1..]))
  }

  /** `order` lists the keys of `m` once each, in the order the object was built. */
  predicate IsKeyOrder(order: seq<string>, m: map<string, real>)
  {
    Distinct(order) && (forall k :: k in order ==> k in m) && (forall k :: k in m ==> k in order)
  }

  /** `Object.entries(m)`, given the insertion order of its keys. */
  function Entries(m: map<string, real>, order: seq<string>): (r: seq<Entry>)
    requires forall k :: k in order ==> k in m
    ensures |r| == |order|
  {
    seq(|order|, i requires 0 <= i < |order| => Entry(order[i], m[order[i]]))
  }

  /** The sorted entries carry every key of the map, each with its own probability. */
  lemma SortedEntriesOfMap(m: map<string, real>, order: seq<string>)
    requires IsKeyOrder(order, m)
    ensures var r := SortByProbability(Entries(m, order));
      && |r| == |order|
      && (forall i :: 0 <= i < |r| ==> r[i].key in m && r[i].prob == m[r[i].key])
      && (forall k :: k in m ==> Entry(k, m[k]) in r)
  {
    var es := Entries(m, order);
    var r := SortByProbability(es);
    assert |r| == |order| by {
      assert |multiset(r)| == |multiset(es)|;
    }
    forall i | 0 <= i < |r|
      ensures r[i].key in m && r[i].prob == m[r[i].key]
    {
      assert r[i] in multiset(es);
      var j :| 0 <= j < |es| && es[j] == r[i];
    }
    forall k | k in m
      ensures Entry(k, m[k]) in r
    {
      var j :| 0 <= j < |order| && order[j] == k;
      assert es[j] == Entry(k, m[k]);
      assert Entry(k, m[k]) in multiset(r);
    }
  }

  /** What the panel shows; each bar is a sorted entry, drawn with its `Name()` and `Color()`. */
  datatype View =
    | Placeholder
    | Skeleton
    | Card(name: string, confidence: real, level: Level, bars: seq<Entry>)

  /**
   * The panel: a placeholder before any analysis, a skeleton while one runs (even over an
   * older result), and otherwise the result card with its bars sorted largest first.
   */
  function Render(result: Option<PredictionResult>, loading: bool, order: seq<string>): (v: View)
    requires result.Some? ==> IsKeyOrder(order, result.value.allProbabilities)
    ensures v.Placeholder? <==> result.None? && !loading
    ensures v.Skeleton? <==> loading
    ensures v.Card? <==> result.Some? && !loading
    ensures v.Card? ==>
      && v.name == DisplayName(result.value.prediction)
      && v.confidence == result.value.confidence
      && v.level == ConfidenceLevel(result.value.confidence)
      && |v.bars| == |order|
      && NonIncreasing(v.bars)
      && (forall i :: 0 <= i < |v.bars| ==>
            v.bars[i].key in result.value.allProbabilities
            && v.bars[i].prob == result.value.allProbabilities[v.bars[i].key])
      && (forall k :: k in result.value.allProbabilities ==>
            Entry(k, result.value.allProbabilities[k]) in v.bars)
  {
    if result.None? && !loading then Placeholder
    else if loading then Skeleton
    else
      var res := result.value;
      SortedEntriesOfMap(res.allProbabilities, order);
      Card(DisplayName(res.prediction), res.confidence, ConfidenceLevel(res.confidence),
           SortByProbability(Entries(res.allProbabilities, order)))
  }
}
