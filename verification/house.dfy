/** The status a house card shows: red when a model flags a leak, yellow when
    neither does but one gives a probability above one half, green otherwise. */
module House {
  import opened Common
  import opened MockData

  datatype Status = Green | Yellow | Red

  /** `hasLeak`: a prediction exists and either model flags the house. */
  predicate HasLeak(prediction: Option<Prediction>)
    ensures HasLeak(prediction) <==> prediction.Some? && CountFlagged([prediction.value]) == 1
  {
    prediction.Some? && Flagged(prediction.value)
  }

  /** `leakProbability`: the larger of the two model probabilities, 0 without a prediction. */
  function LeakProbability(prediction: Option<Prediction>): (r: real)
    ensures prediction.None? ==> r == 0.0
    ensures prediction.Some? ==>
      r >= prediction.value.rfProbability && r >= prediction.value.lrProbability &&
      (r == prediction.value.rfProbability || r == prediction.value.lrProbability)
  {
    if prediction.None? then 0.0
    else if prediction.value.rfProbability >= prediction.value.lrProbability then prediction.value.rfProbability
    else prediction.value.lrProbability
  }

  /** The `statusColor` selection of the if / else-if chain. */
  function StatusOf(prediction: Option<Prediction>): (st: Status)
    ensures st == Red <==> prediction.Some? && (prediction.value.rfPrediction == 1 || prediction.value.lrPrediction == 1)
    ensures st == Yellow <==>
      prediction.Some? && prediction.value.rfPrediction != 1 && prediction.value.lrPrediction != 1 &&
      (prediction.value.rfProbability > 0.5 || prediction.value.lrProbability > 0.5)
    ensures st == Green <==>
      prediction.None? ||
      (prediction.value.rfPrediction != 1 && prediction.value.lrPrediction != 1 &&
       prediction.value.rfProbability <= 0.5 && prediction.value.lrProbability <= 0.5)
  {
    if HasLeak(prediction) then Red
    else if LeakProbability(prediction) > 0.5 then Yellow
    else Green
  }

  /** The colour name each status is drawn in. */
  function ColourOf(st: Status): string {
    match st
    case Red => "red"
    case Yellow => "yellow"
    case Green => "green"
  }

  /** The `statusColor` class string of each status: the status colour, pulsing only for a leak. */
  function StatusClass(st: Status): (cls: string)
    ensures |cls| >= 3 + |ColourOf(st)| && cls[3..3 + |ColourOf(st)|] == ColourOf(st)
    ensures Contains(cls, "leak-pulse") <==> st == Red
  {
    match st
    case Red =>
      assert OccursAt("bg-red-500 leak-pulse", "leak-pulse", 11);
      "bg-red-500 leak-pulse"
    case Yellow => NoPulseWithoutP("bg-yellow-500"); "bg-yellow-500"
    case Green => NoPulseWithoutP("bg-green-500"); "bg-green-500"
  }

  /** The `borderColor` class string of each status, in the status colour. */
  function BorderClass(st: Status): (cls: string)
    ensures |cls| >= 7 + |ColourOf(st)| && cls[7..7 + |ColourOf(st)|] == ColourOf(st)
  {
    match st
    case Red => "border-red-400"
    case Yellow => "border-yellow-300"
    case Green => "border-green-300"
  }

  /** The tooltip's verdict for one model's flag. */
  function ModelVerdict(flag: int): (word: string)
    ensures word == "LEAK" <==> flag == 1
    ensures word == "OK" <==> flag != 1
  {
    if flag == 1 then "LEAK" else "OK"
  }

  /** The text colour of each status, in the status colour. */
  function TextClass(st: Status): (cls: string)
    ensures |cls| >= 5 + |ColourOf(st)| && cls[5..5 + |ColourOf(st)|] == ColourOf(st)
  {
    match st
    case Red => "text-red-600"
    case Yellow => "text-yellow-600"
    case Green => "text-green-600"
  }

  /** The icon colour of the full card, chosen by its own nested conditional; it follows the
      same three-way rule as the status dot. */
  function IconClass(prediction: Option<Prediction>): (cls: string)
    ensures cls == TextClass(StatusOf(prediction))
  {
    if HasLeak(prediction) then "text-red-600"
    else if LeakProbability(prediction) > 0.5 then "text-yellow-600"
    else "text-green-600"
  }

  /** A probability of exactly one half without a flag stays green. */
  lemma HalfStaysGreen(rfProbability: real, lrProbability: real)
    requires rfProbability <= 0.5 && lrProbability <= 0.5
    ensures StatusOf(Some(Prediction(0, rfProbability, 0, lrProbability))) == Green
    ensures StatusOf(Some(Prediction(0, 0.5, 0, 0.5))) == Green
  {
  }

  predicate OccursAt(s: string, pat: string, i: nat) {
    i + |pat| <= |s| && s[i..i + |pat|] == pat
  }

  predicate Contains(s: string, pat: string) {
    exists i :: 0 <= i <= |s| && OccursAt(s, pat, i)
  }

  /** `s.replace(pat, rep)` with a string pattern: only the first occurrence is replaced. */
  function ReplaceFirst(s: string, pat: string, rep: string): (r: string)
    requires |pat| > 0
    ensures |r| == |s| || |r| == |s| - |pat| + |rep|
    decreases |s|
  {
    if |s| < |pat| then s
    else if s[..|pat|] == pat then rep + s[|pat|..]
    else [s[0]] + ReplaceFirst(s[1..], pat, rep)
  }

  /** Without an occurrence of the pattern, the string is left as it is. */
  lemma {:induction false} ReplaceFirstAbsent(s: string, pat: string, rep: string)
    requires |pat| > 0 && !Contains(s, pat)
    ensures ReplaceFirst(s, pat, rep) == s
    decreases |s|
  {
    if |s| >= |pat| {
      assert !OccursAt(s, pat, 0);
      if Contains(s[1..], pat) {
        var i :| 0 <= i <= |s[1..]| && OccursAt(s[1..], pat, i);
        assert s[i + 1..i + 1 + |pat|] == s[1..][i..i + |pat|];
        assert OccursAt(s, pat, i + 1);
      }
      ReplaceFirstAbsent(s[1..], pat, rep);
      assert [s[0]] + s[1..] == s;
    }
  }

  /** The full card's icon background: the status class with `leak-pulse` removed. */
  function CardIconBackground(st: Status): string {
    ReplaceFirst(StatusClass(st), "leak-pulse", "")
  }

  /** A string that contains `pat` contains each of its characters. */
  lemma ContainsHasChar(s: string, pat: string, k: nat)
    requires Contains(s, pat) && k < |pat|
    ensures pat[k] in s
  {
    var i :| 0 <= i <= |s| && OccursAt(s, pat, i);
    assert s[i + k] == pat[k];
  }

  /** When the first character of `pat` does not occur in `a`, the first occurrence of `pat` in `a + pat + b` is the one after `a`. */
  lemma {:induction false} ReplaceAfterPrefix(a: string, pat: string, b: string, rep: string)
    requires |pat| > 0 && pat[0] !in a
    ensures ReplaceFirst(a + pat + b, pat, rep) == a + rep + b
  {
    var s := a + pat + b;
    if a == [] {
      assert s == pat + b;
      assert s[..|pat|] == pat;
      assert s[|pat|..] == b;
    } else {
      assert a[0] in a;
      assert s[0] == a[0];
      assert s[..|pat|] != pat by {
        assert s[..|pat|][0] == s[0];
      }
      assert ReplaceFirst(s, pat, rep) == [s[0]] + ReplaceFirst(s[1..], pat, rep);
      assert s[1..] == a[1..] + pat + b;
      ReplaceAfterPrefix(a[1..], pat, b, rep);
      assert [a[0]] + (a[1..] + rep + b) == a + rep + b;
    }
  }

  /** A string without the character `p` does not contain `leak-pulse`. */
  lemma NoPulseWithoutP(s: string)
    requires 'p' !in s
    ensures !Contains(s, "leak-pulse")
  {
    if Contains(s, "leak-pulse") {
      ContainsHasChar(s, "leak-pulse", 5);
    }
  }

  /** The red class loses its `leak-pulse` and keeps its trailing space. */
  lemma RedIconBackground()
    ensures CardIconBackground(Red) == "bg-red-500 "
  {
    var a := "bg-red-500 ";
    assert StatusClass(Red) == a + "leak-pulse" + "";
    ReplaceAfterPrefix(a, "leak-pulse", "", "");
  }

  /** A class without `leak-pulse` passes through unchanged. */
  lemma CalmIconBackground(st: Status)
    requires st != Red
    ensures !Contains(StatusClass(st), "leak-pulse")
    ensures CardIconBackground(st) == StatusClass(st)
  {
    ReplaceFirstAbsent(StatusClass(st), "leak-pulse", "");
  }

  /** The icon background never pulses: the red class loses its `leak-pulse`, the others are unchanged. */
  lemma CardIconBackgroundDoesNotPulse(st: Status)
    ensures !Contains(CardIconBackground(st), "leak-pulse")
    ensures st == Red ==> CardIconBackground(st) == "bg-red-500 "
    ensures st != Red ==> CardIconBackground(st) == StatusClass(st)
  {
    if st == Red {
      RedIconBackground();
      NoPulseWithoutP("bg-red-500 ");
    } else {
      CalmIconBackground(st);
    }
  }

  /** A mock prediction is red exactly when its leak draw is below the leak rate, and never yellow:
      a mock house never shows the warning colour. */
  lemma MockHouseStatus(draws: seq<real>, i: nat)
    requires |draws| >= SharedDrawCount && AllDraws(draws) && i < MockHouseCount
    ensures StatusOf(Some(MockPredictionAt(draws, i))) != Yellow
    ensures StatusOf(Some(MockPredictionAt(draws, i))) == Red <==> draws[150 + 3 * i] < LeakRate
  {
  }
}
