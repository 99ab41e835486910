/** What the analytics dashboard derives from the two histograms it is given:
    the purpose breakdown (rows by count, a rounded percentage and a colour
    band each) and the monthly trend (rows in date order, bar width relative
    to the busiest month). */
module AnalyticsDashboard {
  import opened Http
  import opened Seqs
  import opened Histograms
  import Score

  /** The four progress-bar colours, from worst to best. */
  const Palette: seq<string> := ["bg-red-500", "bg-yellow-500", "bg-blue-500", "bg-green-500"]

  /** `getProgressColor`: the band a percentage falls in. */
  function ProgressColor(percentage: int): (c: string)
    ensures c in Palette
  {
    if percentage >= 80 then "bg-green-500"
    else if percentage >= 60 then "bg-blue-500"
    else if percentage >= 40 then "bg-yellow-500"
    else "bg-red-500"
  }

  /** The position of a colour in the palette (worst first). */
  function Band(percentage: int): (b: nat)
    ensures b < |Palette| && Palette[b] == ProgressColor(percentage)
  {
    if percentage >= 80 then 3 else if percentage >= 60 then 2 else if percentage >= 40 then 1 else 0
  }

  /** A larger percentage never gets a worse colour, and each band starts at
      its threshold: 40 for yellow, 60 for blue, 80 for green. */
  lemma ProgressColorMonotone(a: int, b: int)
    requires a <= b
    ensures Band(a) <= Band(b)
    ensures Band(a) == 0 <==> a < 40
    ensures Band(b) == 3 <==> b >= 80
  {
  }

  /** `purposeLabels[purpose] || purpose`: the display name of a purpose. */
  function Label(purpose: string): (r: string)
    ensures purpose != [] ==> r != []
  {
    match purpose
    case "DONATION" => "Donations"
    case "TEACHING" => "Teaching"
    case "WORKSHOP" => "Workshops"
    case "ENTERTAINMENT" => "Entertainment"
    case "HEALTH" => "Health Services"
    case "MENTORING" => "Mentoring"
    case "CELEBRATION" => "Celebrations"
    case "MAINTENANCE" => "Maintenance"
    case "OTHER" => "Other"
    case _ => purpose
  }

  /** The purposes with a label of their own. */
  const LabelledPurposes: seq<string> :=
    ["DONATION", "TEACHING", "WORKSHOP", "ENTERTAINMENT", "HEALTH", "MENTORING", "CELEBRATION", "MAINTENANCE", "OTHER"]

  /** A purpose without a label is shown as its raw key. */
  lemma UnknownPurposeShownRaw(purpose: string)
    requires purpose !in LabelledPurposes
    ensures Label(purpose) == purpose
  {
  }

  /** Every purpose in the label table is shown under a name that differs
      from its key; two purposes the visits endpoint accepts, ONLINE_CLASS
      and VOLUNTEERING, are not in the table and are shown raw. */
  lemma KnownPurposesRelabelled()
    ensures forall i :: 0 <= i < |LabelledPurposes| ==> Label(LabelledPurposes[i]) != LabelledPurposes[i]
    ensures Label("ONLINE_CLASS") == "ONLINE_CLASS" && Label("VOLUNTEERING") == "VOLUNTEERING"
  {
    forall i | 0 <= i < |LabelledPurposes| ensures Label(LabelledPurposes[i]) != LabelledPurposes[i] {
      assert LabelledPurposes[i] in LabelledPurposes;
    }
  }

  /** `Math.round((count / total) * 100)`. */
  function Percentage(count: nat, total: nat): (p: int)
    requires count <= total && total > 0
    ensures 0 <= p <= 100
    ensures count == total ==> p == 100
    ensures count == 0 ==> p == 0
  {
    var x := (count as real / total as real) * 100.0;
    assert 0.0 <= x <= 100.0 by {
      assert count as real / total as real <= 1.0;
    }
    assert count == total ==> x == 100.0 by {
      if count == total {
        assert count as real / total as real == 1.0;
      }
    }
    assert count == 0 ==> x == 0.0;
    Score.Round(x)
  }

  /** One line of the purpose breakdown. */
  datatype PurposeRow = PurposeRow(purpose: string, title: string, count: nat, percentage: int, color: string)

  /** A single entry counts no more than the whole histogram. */
  lemma {:induction false} EntryAtMostTotal(h: Histogram, e: (string, nat))
    requires e in h
    ensures e.1 <= Total(h)
  {
    if h[0] != e {
      EntryAtMostTotal(h[1..], e);
    }
  }

  function RowOf(e: (string, nat), total: nat): (r: PurposeRow)
    requires e.1 <= total && total > 0
  {
    var p := Percentage(e.1, total);
    PurposeRow(e.0, Label(e.0), e.1, p, ProgressColor(p))
  }

  /** The purpose breakdown: None is the empty state ("No visit data
      available"); otherwise the entries, largest count first. */
  function PurposeBreakdown(h: Histogram): (r: Option<seq<PurposeRow>>)
    ensures r.None? <==> Total(h) == 0
    ensures r.Some? ==> |r.value| == |h|
  {
    var total := Total(h);
    if total == 0 then None
    else
      var s := SortBy(h, CountDesc);
      assert forall i :: 0 <= i < |s| ==> s[i].1 <= total by {
        forall i | 0 <= i < |s| ensures s[i].1 <= total {
          assert s[i] in multiset(h);
          EntryAtMostTotal(h, s[i]);
        }
      }
      Some(seq(|s|, i requires 0 <= i < |s| => RowOf(s[i], total)))
  }

  /** The rows show every entry of the histogram once, in non-increasing
      count order, each with its own percentage of the total, a colour
      matching that percentage and its label. */
  lemma PurposeBreakdownFacts(h: Histogram)
    requires Total(h) > 0
    ensures var rows := PurposeBreakdown(h).value;
            multiset(seq(|rows|, i requires 0 <= i < |rows| => (rows[i].purpose, rows[i].count))) == multiset(h) &&
            (forall i, j :: 0 <= i < j < |rows| ==> rows[i].count >= rows[j].count) &&
            (forall i :: 0 <= i < |rows| ==>
               && 0 <= rows[i].percentage <= 100
               && rows[i].percentage == Score.Round(rows[i].count as real / Total(h) as real * 100.0)
               && rows[i].color == ProgressColor(rows[i].percentage)
               && rows[i].title == Label(rows[i].purpose))
  {
    var s := SortBy(h, CountDesc);
    var rows := PurposeBreakdown(h).value;
    var pairs := seq(|rows|, i requires 0 <= i < |rows| => (rows[i].purpose, rows[i].count));
    assert pairs == s;
    CountDescTotalPreorder();
    SortBySorted(h, CountDesc);
  }

  /** With a total of zero nothing but the empty state is shown. */
  lemma ZeroTotalIsEmptyState(keys: seq<string>)
    ensures PurposeBreakdown(Tally(keys)).None? <==> keys == []
  {
    TallyTotal(keys);
  }

  /** `Math.max(...Object.values(visitsByMonth))`. */
  function MaxCount(h: Histogram): (m: nat)
    requires h != []
    ensures forall i :: 0 <= i < |h| ==> h[i].1 <= m
    ensures exists i :: 0 <= i < |h| && h[i].1 == m
  {
    if |h| == 1 then h[0].1
    else
      var rest := MaxCount(h[1..]);
      assert forall i :: 1 <= i < |h| ==> h[i] == h[1..][i - 1];
      if h[0].1 >= rest then h[0].1
      else
        var k :| 0 <= k < |h[1..]| && h[1..][k].1 == rest;
        assert h[k + 1].1 == rest;
        rest
  }

  /** `maxCount > 0 ? (count / maxCount) * 100 : 0`. */
  function Width(count: nat, max: nat): real {
    if max > 0 then (count as real / max as real) * 100.0 else 0.0
  }

  /** Months are ordered by the time their key parses to
      (`new Date(a).getTime() - new Date(b).getTime()`). */
  function ByTime(timeOf: string -> int): ((string, nat), (string, nat)) -> bool {
    (a: (string, nat), b: (string, nat)) => timeOf(a.0) <= timeOf(b.0)
  }

  lemma ByTimeTotalPreorder(timeOf: string -> int)
    ensures TotalPreorder(ByTime(timeOf))
  {
  }

  datatype MonthRow = MonthRow(month: string, count: nat, width: real)

  /** The monthly trend: None is the empty state ("No monthly data
      available"), shown exactly when there are no months. */
  function MonthlyTrend(h: Histogram, timeOf: string -> int): (r: Option<seq<MonthRow>>)
    ensures r.None? <==> h == []
    ensures r.Some? ==> |r.value| == |h|
  {
    if h == [] then None
    else
      var s := SortBy(h, ByTime(timeOf));
      var max := MaxCount(h);
      Some(seq(|s|, i requires 0 <= i < |s| => MonthRow(s[i].0, s[i].1, Width(s[i].1, max))))
  }

  /** Every month is shown once, in date order; every bar is between 0 and
      100 wide, and a bar is full exactly when its month is (one of) the
      busiest and that month has visits. */
  lemma MonthlyTrendFacts(h: Histogram, timeOf: string -> int)
    requires h != []
    ensures var rows := MonthlyTrend(h, timeOf).value;
            multiset(seq(|rows|, i requires 0 <= i < |rows| => (rows[i].month, rows[i].count))) == multiset(h) &&
            (forall i, j :: 0 <= i < j < |rows| ==> timeOf(rows[i].month) <= timeOf(rows[j].month)) &&
            (forall i :: 0 <= i < |rows| ==> 0.0 <= rows[i].width <= 100.0) &&
            (forall i :: 0 <= i < |rows| ==> (rows[i].width == 100.0 <==> rows[i].count == MaxCount(h) > 0)) &&
            (MaxCount(h) > 0 ==> exists i :: 0 <= i < |rows| && rows[i].width == 100.0)
  {
    var s := SortBy(h, ByTime(timeOf));
    var rows := MonthlyTrend(h, timeOf).value;
    var max := MaxCount(h);
    var pairs := seq(|rows|, i requires 0 <= i < |rows| => (rows[i].month, rows[i].count));
    assert pairs == s;
    ByTimeTotalPreorder(timeOf);
    SortBySorted(h, ByTime(timeOf));
    forall i | 0 <= i < |rows|
      ensures 0.0 <= rows[i].width <= 100.0
      ensures rows[i].width == 100.0 <==> rows[i].count == max > 0
    {
      assert s[i] in multiset(h);
      var k :| 0 <= k < |h| && h[k] == s[i];
      WidthFacts(s[i].1, max);
    }
    if max > 0 {
      var k :| 0 <= k < |h| && h[k].1 == max;
      assert h[k] in multiset(s);
      var i :| 0 <= i < |s| && s[i] == h[k];
      WidthFacts(s[i].1, max);
      assert rows[i].width == 100.0;
    }
  }

  lemma WidthFacts(count: nat, max: nat)
    requires count <= max
    ensures 0.0 <= Width(count, max) <= 100.0
    ensures Width(count, max) == 100.0 <==> count == max > 0
  {
    if max > 0 {
      var q := count as real / max as real;
      assert q * max as real == count as real;
      if count < max {
        assert q < 1.0;
      }
    }
  }
}
