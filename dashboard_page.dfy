/**
 * The dashboard page: the saved predictions it holds, the three chart series it
 * derives from them (temperature and score trends over the first five saved
 * records, and the risk-level histogram), the summary figures and the risk styles.
 */
module DashboardPage {
  import opened Js
  import opened ChartScale
  import opened ChartBar

  /** A saved prediction, with the fields the page reads. */
  datatype Prediction = Prediction(date: Value, temperature: Value, prediction: real, risk: string)

  /** The `chartData` memo. */
  datatype ChartSeries = ChartSeries(
    temperatureTrend: seq<Point>,
    predictionTrend: seq<Point>,
    riskDistribution: seq<Point>)

  /** The `summaryStats` memo, before `toFixed(1)` formatting. */
  datatype Summary = Summary(total: nat, average: real, highest: real, lowest: real)

  /** What the browser store gave back: nothing, something that failed to load, or a list. */
  datatype SavedPredictions = NothingSaved | Unreadable | Saved(list: seq<Prediction>)

  /** `s.reverse()` on a copy. */
  function Reversed<T>(s: seq<T>): (r: seq<T>)
    ensures |r| == |s|
    ensures forall i :: 0 <= i < |s| ==> r[i] == s[|s| - 1 - i]
  {
    if s == [] then [] else Reversed(s[1..]) + [s[0]]
  }

  /** `predictions.slice(0, 5).reverse()`: the first five records, last one first. */
  function Last5(predictions: seq<Prediction>): (r: seq<Prediction>)
    ensures |r| == if |predictions| < 5 then |predictions| else 5
    ensures forall i :: 0 <= i < |r| ==> r[i] == predictions[|r| - 1 - i]
  {
    Reversed(if |predictions| < 5 then predictions else predictions[..5])
  }

  /** `{ x: i + 1, y: …, label: pred.date }` for each of `Last5`, with `y` chosen by `field`. */
  function Trend(predictions: seq<Prediction>, field: Prediction -> Value): (ps: seq<Point>)
    ensures |ps| == |Last5(predictions)|
    ensures forall i :: 0 <= i < |ps| ==>
              ps[i] == Point(Num((i + 1) as real), field(Last5(predictions)[i]),
                             Last5(predictions)[i].date, Undefined)
  {
    var last5 := Last5(predictions);
    seq(|last5|, i requires 0 <= i < |last5| =>
      Point(Num((i + 1) as real), field(last5[i]), last5[i].date, Undefined))
  }

  function TemperatureOf(p: Prediction): Value { p.temperature }

  function ScoreOf(p: Prediction): Value { Num(p.prediction) }

  /**
   * Each trend has `k = min(5, n)` points; point `i` is record `k - 1 - i`, at
   * `x = i + 1` and labelled with that record's date.
   */
  lemma TrendPoints(predictions: seq<Prediction>)
    ensures var k := if |predictions| < 5 then |predictions| else 5;
      var t, p := Trend(predictions, TemperatureOf), Trend(predictions, ScoreOf);
      && |t| == |p| == k
      && (forall i :: 0 <= i < k ==>
            && t[i].x == p[i].x == Num((i + 1) as real)
            && t[i].y == predictions[k - 1 - i].temperature
            && p[i].y == Num(predictions[k - 1 - i].prediction)
            && t[i].caption == p[i].caption == predictions[k - 1 - i].date)
  {
  }

  /**
   * Trend points always carry a truthy `x` (`i + 1`), so their axis labels show the
   * record's date or the position, never the generated `Day` text.
   */
  lemma TrendLabelsNeverGenerated(predictions: seq<Prediction>, field: Prediction -> Value)
    ensures var t := Trend(predictions, field);
      forall i :: 0 <= i < |t| ==>
        LabelText(t[i], Day(i + 1)).Shown? && LabelText(t[i], Category(i + 1)).Shown?
  {
  }

  /** The `risk` of every record, in order. */
  function Risks(predictions: seq<Prediction>): (rs: seq<string>)
    ensures |rs| == |predictions|
    ensures forall i :: 0 <= i < |rs| ==> rs[i] == predictions[i].risk
  {
    seq(|predictions|, i requires 0 <= i < |predictions| => predictions[i].risk)
  }

  /** The distinct elements of `s`, in order of first occurrence. */
  function FirstOccurrences(s: seq<string>): (f: seq<string>)
    ensures forall k :: k in f <==> k in s
    ensures forall i, j :: 0 <= i < j < |f| ==> f[i] != f[j]
  {
    if s == [] then []
    else
      var f := FirstOccurrences(s[..|s| - 1]);
      var last := s[|s| - 1];
      assert s == s[..|s| - 1] + [last];
      if last in f then f else f + [last]
  }

  /** There are no more distinct elements than elements, and none exactly when there are none. */
  lemma {:induction false} FirstOccurrencesLength(s: seq<string>)
    ensures |FirstOccurrences(s)| <= |s|
    ensures FirstOccurrences(s) == [] <==> s == []
  {
    if s != [] {
      FirstOccurrencesLength(s[..|s| - 1]);
    }
  }

  /** The index of the first occurrence of `x` in `s`. */
  function FirstIndex(s: seq<string>, x: string): (i: nat)
    requires x in s
    ensures i < |s| && s[i] == x && x !in s[..i]
  {
    if s[0] == x then 0
    else
      var i := 1 + FirstIndex(s[1..], x);
      assert s[..i] == [s[0]] + s[1..][..i - 1];
      i
  }

  /** An occurrence with no earlier one is the first occurrence. */
  lemma FirstIndexUnique(s: seq<string>, x: string, i: nat)
    requires i < |s| && s[i] == x && x !in s[..i]
    ensures FirstIndex(s, x) == i
  {
  }

  /** Appending an element does not move the first occurrence of anything already present. */
  lemma FirstIndexSnoc(init: seq<string>, y: string, x: string)
    requires x in init
    ensures FirstIndex(init + [y], x) == FirstIndex(init, x)
  {
    var i := FirstIndex(init, x);
    assert (init + [y])[..i] == init[..i];
    FirstIndexUnique(init + [y], x, i);
  }

  /**
   * The distinct elements come in order of first occurrence: an earlier key first
   * occurs earlier in `s`.  With membership and distinctness this fixes the order.
   */
  lemma {:induction false} FirstOccurrencesOrdered(s: seq<string>)
    ensures forall j, k :: 0 <= j < k < |FirstOccurrences(s)| ==>
              FirstIndex(s, FirstOccurrences(s)[j]) < FirstIndex(s, FirstOccurrences(s)[k])
  {
    if s != [] {
      var init, last := s[..|s| - 1], s[|s| - 1];
      assert s == init + [last];
      FirstOccurrencesOrdered(init);
      var f' := FirstOccurrences(init);
      var f := FirstOccurrences(s);
      forall x | x in init ensures FirstIndex(s, x) == FirstIndex(init, x) < |init| {
        FirstIndexSnoc(init, last, x);
      }
      if last !in init {
        assert f == f' + [last];
        FirstIndexUnique(s, last, |s| - 1);
        forall j, k | 0 <= j < k < |f| ensures FirstIndex(s, f[j]) < FirstIndex(s, f[k]) {
          assert f[j] == f'[j] && f'[j] in init;
          assert FirstIndex(s, f[j]) < |init|;
          if k < |f'| {
            assert f[k] == f'[k] && f'[k] in init;
            assert FirstIndex(s, f[j]) == FirstIndex(init, f'[j]);
            assert FirstIndex(s, f[k]) == FirstIndex(init, f'[k]);
            assert FirstIndex(init, f'[j]) < FirstIndex(init, f'[k]);
          } else {
            assert f[k] == last;
            assert FirstIndex(s, last) == |s| - 1;
          }
        }
      } else {
        assert f == f';
        forall j, k | 0 <= j < k < |f| ensures FirstIndex(s, f[j]) < FirstIndex(s, f[k]) {
          assert f[j] == f'[j] && f[k] == f'[k] && f'[j] in init && f'[k] in init;
          assert FirstIndex(s, f[j]) == FirstIndex(init, f'[j]);
          assert FirstIndex(s, f[k]) == FirstIndex(init, f'[k]);
        }
      }
    }
  }

  /** The total of the counts in `m` of the given keys. */
  function SumCounts(keys: seq<string>, m: multiset<string>): nat
  {
    if keys == [] then 0 else SumCounts(keys[..|keys| - 1], m) + m[keys[|keys| - 1]]
  }

  /** One more element adds one to the total of the keys it is among (once, as keys are distinct). */
  lemma {:induction false} SumCountsAdd(keys: seq<string>, m: multiset<string>, x: string)
    requires forall i, j :: 0 <= i < j < |keys| ==> keys[i] != keys[j]
    ensures SumCounts(keys, m + multiset{x}) == SumCounts(keys, m) + if x in keys then 1 else 0
  {
    if keys != [] {
      var init, last := keys[..|keys| - 1], keys[|keys| - 1];
      assert keys == init + [last];
      SumCountsAdd(init, m, x);
      assert x in keys <==> x in init || x == last;
      assert x == last ==> x !in init;
    }
  }

  /** The counts of the distinct risks add up to the number of records. */
  lemma {:induction false} CountsSumToLength(s: seq<string>)
    ensures SumCounts(FirstOccurrences(s), multiset(s)) == |s|
  {
    if s != [] {
      var init, last := s[..|s| - 1], s[|s| - 1];
      assert s == init + [last];
      CountsSumToLength(init);
      var f := FirstOccurrences(init);
      SumCountsAdd(f, multiset(init), last);
      if last !in f {
        assert last !in init;
        assert multiset(init)[last] == 0;
        assert (f + [last])[..|f|] == f;
      }
    }
  }

  /** The `riskDistribution` series, specified: one bar per distinct risk, first-seen order. */
  function RiskDistribution(predictions: seq<Prediction>): (ps: seq<Point>)
    ensures |ps| <= |predictions| && (ps == [] <==> predictions == [])
    ensures forall j :: 0 <= j < |ps| ==> ps[j].x.Str? && ps[j].x == ps[j].caption && ps[j].x.s in Risks(predictions)
  {
    var rs := Risks(predictions);
    var keys := FirstOccurrences(rs);
    FirstOccurrencesLength(rs);
    seq(|keys|, j requires 0 <= j < |keys| =>
      Point(Str(keys[j]), Num(multiset(rs)[keys[j]] as real), Str(keys[j]), Undefined))
  }

  /**
   * The histogram has one entry per distinct risk, none repeated, each labelled by
   * its risk (as `x` and `label`) with a count of at least one, and the counts add
   * up to the number of records.
   */
  lemma RiskDistributionFacts(predictions: seq<Prediction>)
    ensures var d := RiskDistribution(predictions);
      var keys := FirstOccurrences(Risks(predictions));
      && |d| == |keys|
      && (forall r :: r in keys <==> exists i :: 0 <= i < |predictions| && predictions[i].risk == r)
      && (forall j, k :: 0 <= j < k < |d| ==> d[j].x != d[k].x)
      && (forall j :: 0 <= j < |d| ==>
            && d[j].x == d[j].caption == Str(keys[j])
            && d[j].y.Num? && 1.0 <= d[j].y.n
            && d[j].y.n == multiset(Risks(predictions))[keys[j]] as real)
      && SumCounts(keys, multiset(Risks(predictions))) == |predictions|
  {
    var d := RiskDistribution(predictions);
    var rs := Risks(predictions);
    var keys := FirstOccurrences(rs);
    KeysAreRisks(predictions);
    forall j | 0 <= j < |d|
      ensures d[j].x == d[j].caption == Str(keys[j])
      ensures d[j].y.Num? && 1.0 <= d[j].y.n && d[j].y.n == multiset(rs)[keys[j]] as real
    {
      RiskEntry(predictions, j);
    }
    CountsSumToLength(rs);
  }

  /** The keys are exactly the risks some record has. */
  lemma KeysAreRisks(predictions: seq<Prediction>)
    ensures forall r :: r in FirstOccurrences(Risks(predictions)) <==>
              exists i :: 0 <= i < |predictions| && predictions[i].risk == r
  {
    var rs := Risks(predictions);
    forall r ensures r in rs <==> exists i :: 0 <= i < |predictions| && predictions[i].risk == r {
      if r in rs {
        var i :| 0 <= i < |rs| && rs[i] == r;
        assert predictions[i].risk == r;
      }
    }
  }

  /** Entry `j` of the histogram: its risk as `x` and label, and that risk's count, at least 1. */
  lemma RiskEntry(predictions: seq<Prediction>, j: nat)
    requires j < |RiskDistribution(predictions)|
    ensures var d := RiskDistribution(predictions);
      var rs := Risks(predictions);
      var key := FirstOccurrences(rs)[j];
      && d[j].x == d[j].caption == Str(key)
      && d[j].y.Num? && 1.0 <= d[j].y.n && d[j].y.n == multiset(rs)[key] as real
  {
    var rs := Risks(predictions);
    assert FirstOccurrences(rs)[j] in rs;
  }

  /** The histogram's entries appear in the order their risks first occur in the records. */
  lemma RiskDistributionOrder(predictions: seq<Prediction>)
    ensures var d := RiskDistribution(predictions);
      forall j, k :: 0 <= j < k < |d| ==>
        FirstIndex(Risks(predictions), d[j].x.s) < FirstIndex(Risks(predictions), d[k].x.s)
  {
    var rs := Risks(predictions);
    var keys := FirstOccurrences(rs);
    var d := RiskDistribution(predictions);
    FirstOccurrencesOrdered(rs);
    forall j, k | 0 <= j < k < |d| ensures FirstIndex(rs, d[j].x.s) < FirstIndex(rs, d[k].x.s) {
      assert d[j].x.s == keys[j] && d[k].x.s == keys[k];
    }
  }

  /** A positive value on a positive scale gives a bar of positive height, no taller than the chart. */
  lemma PositiveBar(value: real, maxValue: real, height: real)
    requires 0.0 < value <= maxValue && 0.0 < height
    ensures 0.0 < BarHeight(value, maxValue, height) <= height
  {
    DivideMonotone(value, maxValue, maxValue);
    assert 0.0 < value / maxValue;
    ScaleMonotone(value / maxValue, 1.0, height);
  }

  /**
   * Drawn as the bar chart, the histogram of any non-empty record list shows one
   * bar per distinct risk, each with a positive height within the chart: a count is
   * never zero, so no risk level that occurs is drawn flat.
   */
  lemma RiskBarsVisible(predictions: seq<Prediction>, height: real, text: string -> Option<real>)
    requires |predictions| > 0 && 0.0 < height
    ensures var d := RiskDistribution(predictions);
      && |d| > 0
      && RenderBar(d, height, text).Some?
      && var bars := RenderBar(d, height, text).value.bars;
         |bars| == |d| && forall j :: 0 <= j < |bars| ==> 0.0 < bars[j].height <= height
  {
    var d := RiskDistribution(predictions);
    var rs := Risks(predictions);
    assert |d| > 0 by {
      assert rs[0] in FirstOccurrences(rs);
    }
    RenderBarParts(d, height, text);
    var s := Calculations(d, text).value;
    forall j | 0 <= j < |d| ensures 0.0 < Bars(d, s, height, text)[j].height <= height {
      assert 1.0 <= s.values[j] by { CountAtLeastOne(predictions, j); }
      RiskBarAt(d, s, j, height, text);
    }
  }

  /** Every histogram entry is drawn at its count, which is at least one. */
  lemma CountAtLeastOne(predictions: seq<Prediction>, j: nat)
    requires j < |RiskDistribution(predictions)|
    ensures forall text: string -> Option<real> ::
      1.0 <= SafeValue(RawValue(RiskDistribution(predictions)[j]), text)
  {
    var rs := Risks(predictions);
    var keys := FirstOccurrences(rs);
    assert keys[j] in rs;
  }

  /** One bar of a chart whose value is positive and within the scale. */
  lemma RiskBarAt(d: seq<Point>, s: Scale, j: nat, height: real, text: string -> Option<real>)
    requires j < |d| && 0.0 < height
    requires 0.0 < SafeValue(RawValue(d[j]), text) <= s.maxValue
    ensures 0.0 < Bars(d, s, height, text)[j].height <= height
  {
    BarAt(d, s, j, height, text);
    PositiveBar(SafeValue(RawValue(d[j]), text), s.maxValue, height);
  }

  /** `acc[risk] = (acc[risk] || 0) + 1` */
  function Bump(counts: map<string, nat>, risk: string): map<string, nat>
  {
    counts[risk := (if risk in counts then counts[risk] else 0) + 1]
  }

  /** Counts that tally `seen` tally `seen + [risk]` once bumped at `risk`. */
  lemma BumpTallies(counts: map<string, nat>, seen: seq<string>, risk: string)
    requires forall k :: k in counts <==> k in seen
    requires forall k :: k in counts ==> counts[k] == multiset(seen)[k]
    ensures forall k :: k in Bump(counts, risk) <==> k in seen + [risk]
    ensures forall k :: k in Bump(counts, risk) ==> Bump(counts, risk)[k] == multiset(seen + [risk])[k]
  {
    assert multiset(seen + [risk]) == multiset(seen) + multiset{risk};
  }

  /** A new element joins the distinct elements at the end; a repeated one changes nothing. */
  lemma FirstOccurrencesSnoc(seen: seq<string>, x: string)
    ensures FirstOccurrences(seen + [x])
            == if x in seen then FirstOccurrences(seen) else FirstOccurrences(seen) + [x]
  {
    assert (seen + [x])[..|seen|] == seen;
  }

  /** Scanning the records in order, a risk joins the key list at its first index and at no later one. */
  lemma KeyJoinsAtFirstIndex(s: seq<string>, i: nat)
    requires i < |s|
    ensures FirstOccurrences(s[..i + 1])
            == if FirstIndex(s, s[i]) == i then FirstOccurrences(s[..i]) + [s[i]] else FirstOccurrences(s[..i])
  {
    var prefix, x := s[..i], s[i];
    assert s[..i + 1] == prefix + [x];
    FirstOccurrencesSnoc(prefix, x);
    FirstIndexAt(s, i);
  }

  /** Record i holds its risk's first occurrence exactly when no earlier record has that risk. */
  lemma FirstIndexAt(s: seq<string>, i: nat)
    requires i < |s|
    ensures FirstIndex(s, s[i]) == i <==> s[i] !in s[..i]
  {
    var f := FirstIndex(s, s[i]);
    if s[i] !in s[..i] {
      FirstIndexUnique(s, s[i], i);
    } else {
      assert s[i] !in s[..f];
    }
  }

  lemma PrefixSnoc(s: seq<string>, i: nat)
    requires i < |s|
    ensures s[..i + 1] == s[..i] + [s[i]]
  {
  }

  /** One step of the reduce keeps the keys and the tallies in step with the records seen. */
  lemma CountStep(rs: seq<string>, i: nat, keys: seq<string>, counts: map<string, nat>)
    requires i < |rs|
    requires keys == FirstOccurrences(rs[..i])
    requires forall k :: k in counts <==> k in rs[..i]
    requires forall k :: k in counts ==> counts[k] == multiset(rs[..i])[k]
    ensures (if rs[i] in counts then keys else keys + [rs[i]]) == FirstOccurrences(rs[..i + 1])
    ensures forall k :: k in Bump(counts, rs[i]) <==> k in rs[..i + 1]
    ensures forall k :: k in Bump(counts, rs[i]) ==> Bump(counts, rs[i])[k] == multiset(rs[..i + 1])[k]
  {
    FirstOccurrencesSnoc(rs[..i], rs[i]);
    BumpTallies(counts, rs[..i], rs[i]);
    PrefixSnoc(rs, i);
  }

  /**
   * The `riskCounts` reduce: a walk over the records that bumps `acc[risk]`,
   * creating the key (at the end of the key order) on its first occurrence.
   */
  method CountRisks(predictions: seq<Prediction>) returns (keys: seq<string>, counts: map<string, nat>)
    ensures keys == FirstOccurrences(Risks(predictions))
    ensures forall k :: k in counts <==> k in keys
    ensures forall k :: k in counts ==> counts[k] == multiset(Risks(predictions))[k]
  {
    var rs := Risks(predictions);
    keys, counts := [], map[];
    var i := 0;
    while i < |rs|
      invariant 0 <= i <= |rs|
      invariant keys == FirstOccurrences(rs[..i])
      invariant forall k :: k in counts <==> k in rs[..i]
      invariant forall k :: k in counts ==> counts[k] == multiset(rs[..i])[k]
    {
      var risk := rs[i];
      CountStep(rs, i, keys, counts);
      if risk !in counts {
        keys := keys + [risk];
      }
      counts := Bump(counts, risk);
      i := i + 1;
    }
    assert rs[..i] == rs;
  }

  /** The `chartData` memo: the empty series for no records, otherwise the three derived series. */
  method DeriveChartData(predictions: seq<Prediction>) returns (c: ChartSeries)
    ensures predictions == [] ==> c == ChartSeries([], [], [])
    ensures c.temperatureTrend == Trend(predictions, TemperatureOf)
    ensures c.predictionTrend == Trend(predictions, ScoreOf)
    ensures c.riskDistribution == RiskDistribution(predictions)
  {
    if |predictions| == 0 {
      return ChartSeries([], [], []);
    }
    var keys, counts := CountRisks(predictions);
    var distribution := seq(|keys|, j requires 0 <= j < |keys| =>
      Point(Str(keys[j]), Num(counts[keys[j]] as real), Str(keys[j]), Undefined));
    c := ChartSeries(Trend(predictions, TemperatureOf), Trend(predictions, ScoreOf), distribution);
  }

  /** The scores of the records, in order. */
  function Scores(predictions: seq<Prediction>): (vs: seq<real>)
    ensures |vs| == |predictions|
    ensures forall i :: 0 <= i < |vs| ==> vs[i] == predictions[i].prediction
  {
    seq(|predictions|, i requires 0 <= i < |predictions| => predictions[i].prediction)
  }

  /** `values.reduce((s, v) => s + v, 0)` */
  function Sum(vs: seq<real>): real
  {
    if vs == [] then 0.0 else Sum(vs[..|vs| - 1]) + vs[|vs| - 1]
  }

  /** A sum of `n` values lies between `n` times their lower and `n` times their upper bound. */
  lemma {:induction false} SumBetween(vs: seq<real>, lo: real, hi: real)
    requires forall i :: 0 <= i < |vs| ==> lo <= vs[i] <= hi
    ensures |vs| as real * lo <= Sum(vs) <= |vs| as real * hi
  {
    if vs != [] {
      SumBetween(vs[..|vs| - 1], lo, hi);
    }
  }

  /** The mean of a non-empty sequence lies within any bounds of its elements. */
  lemma MeanWithin(vs: seq<real>, lo: real, hi: real)
    requires |vs| > 0
    requires forall i :: 0 <= i < |vs| ==> lo <= vs[i] <= hi
    ensures lo <= Sum(vs) / |vs| as real <= hi
  {
    SumBetween(vs, lo, hi);
    BetweenAfterDivide(|vs| as real, Sum(vs), lo, hi);
  }

  /** Dividing `n * lo <= t <= n * hi` by a positive `n`. */
  lemma BetweenAfterDivide(n: real, t: real, lo: real, hi: real)
    requires 0.0 < n && n * lo <= t <= n * hi
    ensures lo <= t / n <= hi
  {
    DivideMonotone(n * lo, t, n);
    DivideMonotone(t, n * hi, n);
    Cancel(n, lo);
    Cancel(n, hi);
  }

  /** `n * x / n == x` for positive `n`. */
  lemma Cancel(n: real, x: real)
    requires 0.0 < n
    ensures n * x / n == x
  {
  }

  /**
   * `summaryStats`: all zero without records; otherwise the count, and a mean that
   * lies between the lowest and the highest score, both of which are scores.
   */
  function SummaryStats(predictions: seq<Prediction>): (s: Summary)
    ensures predictions == [] ==> s == Summary(0, 0.0, 0.0, 0.0)
    ensures predictions != [] ==> s.total == |predictions|
    ensures predictions != [] ==> s.lowest <= s.average <= s.highest
    ensures predictions != [] ==>
              (forall i :: 0 <= i < |predictions| ==> s.lowest <= predictions[i].prediction <= s.highest)
              && (exists i :: 0 <= i < |predictions| && predictions[i].prediction == s.highest)
              && (exists i :: 0 <= i < |predictions| && predictions[i].prediction == s.lowest)
  {
    if |predictions| == 0 then Summary(0, 0.0, 0.0, 0.0)
    else
      var values := Scores(predictions);
      MeanWithin(values, MinOf(values), MaxOf(values));
      Summary(|predictions|, Sum(values) / |values| as real, MaxOf(values), MinOf(values))
  }

  /** `getRiskColor` */
  function RiskColor(risk: string): (c: string)
    ensures KnownRisk(risk) <==> c != "text-gray-400"
  {
    match risk
    case "LOW" => "text-green-400"
    case "MEDIUM" => "text-yellow-400"
    case "HIGH" => "text-orange-400"
    case "EXTREME" => "text-red-400"
    case _ => "text-gray-400"
  }

  /** `getRiskBgColor` */
  function RiskBgColor(risk: string): (c: string)
    ensures KnownRisk(risk) <==> c != "bg-gray-500/20"
  {
    match risk
    case "LOW" => "bg-green-500/20"
    case "MEDIUM" => "bg-yellow-500/20"
    case "HIGH" => "bg-orange-500/20"
    case "EXTREME" => "bg-red-500/20"
    case _ => "bg-gray-500/20"
  }

  /** The four risk levels the styles know, exactly as spelled (the match is case-sensitive). */
  predicate KnownRisk(risk: string)
  {
    risk in {"LOW", "MEDIUM", "HIGH", "EXTREME"}
  }

  /**
   * The four known levels get four different text and background classes; every
   * other string gets the gray ones; and the two styles always split the risks the
   * same way (two risks share a text class exactly when they share a background).
   */
  lemma RiskStyles(a: string, b: string)
    ensures KnownRisk(a) && KnownRisk(b) && a != b ==> RiskColor(a) != RiskColor(b) && RiskBgColor(a) != RiskBgColor(b)
    ensures !KnownRisk(a) ==> RiskColor(a) == "text-gray-400" && RiskBgColor(a) == "bg-gray-500/20"
    ensures KnownRisk(a) ==> RiskColor(a) != "text-gray-400" && RiskBgColor(a) != "bg-gray-500/20"
    ensures RiskColor(a) == RiskColor(b) <==> RiskBgColor(a) == RiskBgColor(b)
  {
  }

  /** The page's state: the loaded records and whether loading is still under way. */
  class DashboardState {
    var predictions: seq<Prediction>
    var isLoading: bool

    constructor ()
      ensures predictions == [] && isLoading
    {
      predictions := [];
      isLoading := true;
    }

    /**
     * The load effect: a saved list replaces the records; nothing saved, or a store
     * that could not be read or parsed, leaves them; loading ends either way.
     */
    method LoadSaved(saved: SavedPredictions)
      modifies this
      ensures !isLoading
      ensures saved.Saved? ==> predictions == saved.list
      ensures !saved.Saved? ==> predictions == old(predictions)
    {
      if saved.Saved? {
        predictions := saved.list;
      }
      isLoading := false;
    }

    function ChartData(): (c: ChartSeries)
      reads this
      ensures c.riskDistribution == RiskDistribution(predictions)
      ensures predictions == [] ==> c == ChartSeries([], [], [])
    {
      ChartSeries(Trend(predictions, TemperatureOf), Trend(predictions, ScoreOf),
                  RiskDistribution(predictions))
    }
  }
}
