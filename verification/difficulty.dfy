/**
 * Difficulty of an issue from its labels (client/src/utils/difficulty.ts).
 *
 * Three keyword lists are tried in a fixed priority order, advanced first;
 * a label matches a list when its lower-cased name contains one of the
 * list's keywords.
 */
module Difficulty {
  import opened Wrappers
  import opened Text
  import opened GitHub

  datatype Level = Beginner | Intermediate | Advanced

  const BeginnerLabels: seq<string> := [
    "good first issue", "good-first-issue", "first-timers-only", "first timers only",
    "beginner", "easy", "starter", "newcomer", "good-for-beginners", "good for beginners"
  ]

  const IntermediateLabels: seq<string> := [
    "help wanted", "help-wanted", "medium", "intermediate", "moderate"
  ]

  const AdvancedLabels: seq<string> := [
    "expert", "advanced", "hard", "difficult", "complex", "challenging"
  ]

  /**
   * `for (const label of labelNames) if (keywords.some(k => label.includes(k))) return ...`:
   * the scan over the names, in order, stopping at the first hit.
   */
  function ScanNames(names: seq<string>, keywords: seq<string>): (found: bool)
    ensures found <==> exists i :: 0 <= i < |names| && ContainsAny(names[i], keywords)
    decreases |names|
  {
    if names == [] then false
    else if ContainsAny(names[0], keywords) then true
    else
      assert forall i :: 1 <= i < |names| ==> names[i] == names[1..][i - 1];
      ScanNames(names[1..], keywords)
  }

  /** `detectDifficulty(labels)`; `None` is the source's `null`. */
  function DetectDifficulty(labels: seq<Label>): (r: Option<Level>)
    ensures r == Some(Advanced) <==> SomeLabelContains(labels, AdvancedLabels)
    ensures r == Some(Beginner) <==>
      !SomeLabelContains(labels, AdvancedLabels) && SomeLabelContains(labels, BeginnerLabels)
    ensures r == Some(Intermediate) <==>
      !SomeLabelContains(labels, AdvancedLabels) && !SomeLabelContains(labels, BeginnerLabels)
      && SomeLabelContains(labels, IntermediateLabels)
    ensures labels == [] ==> r == None
  {
    if |labels| == 0 then None
    else
      var names := LabelNames(labels);
      if ScanNames(names, AdvancedLabels) then Some(Advanced)
      else if ScanNames(names, BeginnerLabels) then Some(Beginner)
      else if ScanNames(names, IntermediateLabels) then Some(Intermediate)
      else None
  }

  /** A label without a name reads as `''`, which contains no keyword of any list. */
  lemma UnnamedLabelMatchesNothing(keywords: seq<string>)
    requires forall k :: k in keywords ==> k != ""
    ensures !ContainsAny(LabelName(Label(None)), keywords)
  {
    assert LabelName(Label(None)) == "";
    forall k | k in keywords
      ensures !Contains("", k)
    {
      assert |k| > 0;
    }
  }

  lemma SameNamesSameScan(x: seq<string>, y: seq<string>, keywords: seq<string>)
    requires multiset(x) == multiset(y)
    ensures (exists i :: 0 <= i < |x| && ContainsAny(x[i], keywords))
        ==> (exists j :: 0 <= j < |y| && ContainsAny(y[j], keywords))
  {
    if exists i :: 0 <= i < |x| && ContainsAny(x[i], keywords) {
      var i :| 0 <= i < |x| && ContainsAny(x[i], keywords);
      assert x[i] in multiset(x);
      assert x[i] in y;
      var j :| 0 <= j < |y| && y[j] == x[i];
    }
  }

  /** The result depends only on the multiset of lower-cased names, not on their order. */
  lemma DetectDifficultyIgnoresOrder(a: seq<Label>, b: seq<Label>)
    requires multiset(LabelNames(a)) == multiset(LabelNames(b))
    ensures DetectDifficulty(a) == DetectDifficulty(b)
  {
    var x, y := LabelNames(a), LabelNames(b);
    assert |a| == |x| == |multiset(x)| == |multiset(y)| == |y| == |b|;
    forall kw | kw in [AdvancedLabels, BeginnerLabels, IntermediateLabels]
      ensures SomeLabelContains(a, kw) <==> SomeLabelContains(b, kw)
    {
      SameNamesSameScan(x, y, kw);
      SameNamesSameScan(y, x, kw);
      assert SomeLabelContains(a, kw) <==> exists i :: 0 <= i < |x| && ContainsAny(x[i], kw);
      assert SomeLabelContains(b, kw) <==> exists j :: 0 <= j < |y| && ContainsAny(y[j], kw);
    }
  }

  /** A label such as "advanced-help-wanted" is advanced, although it also names an intermediate keyword. */
  lemma AdvancedWinsOverOtherLists()
    ensures DetectDifficulty([Label(Some("advanced-help-wanted")), Label(Some("good first issue"))])
      == Some(Advanced)
  {
    var l := Label(Some("advanced-help-wanted"));
    assert LabelName(l) == "advanced-help-wanted";
    assert LabelName(l)[0..8] == "advanced";
    assert OccursAt(LabelName(l), "advanced", 0);
    assert "advanced" in AdvancedLabels;
    assert ContainsAny(LabelName(l), AdvancedLabels);
    assert [l, Label(Some("good first issue"))][0] == l;
  }
}
