/** The dashboard's call-report helpers: the display status of an ended call and
    its colour, the per-minute cost, the steps `fetchCallReports` takes around its
    query, and the folds behind the metrics, the outcome chart and the pickup rate. */
module CallReportsService {
  import opened Wrappers
  import opened Json

  /** A `call_reports` row as the dashboard reads it. */
  datatype Report = Report(
    callId: string, agent: string, fromNumber: string, toNumber: string,
    callType: string, status: string, sentiment: Option<string>,
    durationMinutes: real, cost: real, structuredData: Json)

  // ---------------------------------------------------------------------------
  // Display status and colour

  /** The six display labels, in the order the empty outcome chart lists them. */
  const Labels: seq<string> := ["Completed", "No Answer", "Busy", "Failed", "Left Voicemail", "Hangup On Voicemail"]

  /** `getCallStatusDisplay`: the provider's ended reason, and the voicemail flag for
      the `voicemail` reason, mapped to a display label. */
  function StatusDisplay(endedReason: string, hasVoicemailMessage: Json): (display: string)
    ensures display in Labels
    ensures display == "Busy" <==> endedReason == "customer-busy"
    ensures display == "Completed" <==> endedReason == "customer-ended-call" || endedReason == "assistant-ended-call"
    ensures display == "No Answer" <==> endedReason == "customer-did-not-answer"
    ensures display == "Left Voicemail" <==> endedReason == "voicemail" && Truthy(hasVoicemailMessage)
    ensures display == "Hangup On Voicemail" <==> endedReason == "voicemail" && !Truthy(hasVoicemailMessage)
    ensures display == "Failed" <==>
              endedReason !in ["customer-busy", "customer-ended-call", "assistant-ended-call", "customer-did-not-answer", "voicemail"]
  {
    match endedReason
    case "customer-busy" => "Busy"
    case "customer-ended-call" => "Completed"
    case "assistant-ended-call" => "Completed"
    case "customer-did-not-answer" => "No Answer"
    case "voicemail" => if Truthy(hasVoicemailMessage) then "Left Voicemail" else "Hangup On Voicemail"
    case _ => "Failed"
  }

  /** Every label is reached: the range of the display mapping is exactly the six labels. */
  lemma StatusDisplayOnto(display: string)
    requires display in Labels
    ensures exists reason: string, flag: bool :: StatusDisplay(reason, Bool(flag)) == display
  {
    if display == "Completed" {
      assert StatusDisplay("customer-ended-call", Bool(false)) == display;
    } else if display == "No Answer" {
      assert StatusDisplay("customer-did-not-answer", Bool(false)) == display;
    } else if display == "Busy" {
      assert StatusDisplay("customer-busy", Bool(false)) == display;
    } else if display == "Failed" {
      assert StatusDisplay("failed", Bool(false)) == display;
    } else if display == "Left Voicemail" {
      assert StatusDisplay("voicemail", Bool(true)) == display;
    } else {
      assert StatusDisplay("voicemail", Bool(false)) == display;
    }
  }

  /** `getStatusColor`. */
  function StatusColor(display: string): (c: string)
    ensures c in ["text-success", "text-warning", "text-destructive", "text-primary", "text-accent"]
    ensures display !in Labels ==> c == "text-destructive"
  {
    match display
    case "Completed" => "text-success"
    case "Busy" => "text-warning"
    case "No Answer" => "text-destructive"
    case "Left Voicemail" => "text-primary"
    case "Hangup On Voicemail" => "text-accent"
    case _ => "text-destructive"
  }

  /** The colours tell the labels apart except for the two failure labels, which
      share the destructive colour with every unknown label. */
  lemma StatusColorSeparates(a: string, b: string)
    requires a in Labels && b in Labels && a != b
    ensures StatusColor(a) == StatusColor(b) <==>
              (a == "No Answer" && b == "Failed") || (a == "Failed" && b == "No Answer")
  {
  }

  // ---------------------------------------------------------------------------
  // Cost

  /** `calculateCallCost`: 0.011 per second of the call. */
  function CallCost(durationMinutes: real): real
  {
    durationMinutes * 60.0 * 0.011
  }

  /** The cost is 0.66 per minute: zero for a zero duration, monotone, and additive
      over durations. */
  lemma CallCostSpec(a: real, b: real)
    ensures CallCost(a) == 0.66 * a
    ensures CallCost(0.0) == 0.0
    ensures a <= b ==> CallCost(a) <= CallCost(b)
    ensures CallCost(a + b) == CallCost(a) + CallCost(b)
  {
  }

  // ---------------------------------------------------------------------------
  // fetchCallReports around its query

  datatype FetchResult = Reports(reports: seq<Report>) | Thrown

  /** Every report with its cost recomputed from its duration. */
  function Recost(rs: seq<Report>): (r: seq<Report>)
    ensures |r| == |rs|
    ensures forall i :: 0 <= i < |rs| ==> r[i] == rs[i].(cost := CallCost(rs[i].durationMinutes))
  {
    if rs == [] then [] else [rs[0].(cost := CallCost(rs[0].durationMinutes))] + Recost(rs[1..])
  }

  /** `.filter(Boolean)`. */
  function TruthyOnly(ids: seq<Json>): (r: seq<Json>)
    ensures forall x :: x in r <==> x in ids && Truthy(x)
    ensures r == [] <==> forall x :: x in ids ==> !Truthy(x)
  {
    if ids == [] then [] else (if Truthy(ids[0]) then [ids[0]] else []) + TruthyOnly(ids[1..])
  }

  /** The filter asks for one campaign. */
  predicate CampaignScoped(campaignId: Json)
  {
    Truthy(campaignId) && campaignId != Str("all")
  }

  /** `fetchCallReports` without its query: `campaignCalls` is what the campaign-job
      lookup returned (`None` on error), `queried` what the report query returned
      (`None` on error). */
  function FetchCallReports(campaignId: Json, campaignCalls: Option<seq<Json>>, queried: Option<seq<Report>>): FetchResult
  {
    if CampaignScoped(campaignId) && (campaignCalls.None? || TruthyOnly(campaignCalls.value) == []) then Reports([])
    else if queried.None? then Thrown
    else Reports(Recost(queried.value))
  }

  /** A campaign filter whose lookup fails or finds no call id gives no reports
      without running the query; otherwise a failed query throws and a successful
      one is returned in its order with every cost recomputed from the duration
      and every other field as stored. */
  lemma FetchCallReportsSpec(campaignId: Json, campaignCalls: Option<seq<Json>>, queried: Option<seq<Report>>)
    ensures CampaignScoped(campaignId) && (campaignCalls.None? || forall x :: x in campaignCalls.value ==> !Truthy(x)) ==>
              FetchCallReports(campaignId, campaignCalls, queried) == Reports([])
    ensures FetchCallReports(campaignId, campaignCalls, queried).Thrown? <==>
              queried.None? && !(CampaignScoped(campaignId) && (campaignCalls.None? || forall x :: x in campaignCalls.value ==> !Truthy(x)))
    ensures var r := FetchCallReports(campaignId, campaignCalls, queried);
      queried.Some? && !(CampaignScoped(campaignId) && (campaignCalls.None? || forall x :: x in campaignCalls.value ==> !Truthy(x))) ==>
        && r.Reports? && |r.reports| == |queried.value|
        && forall i :: 0 <= i < |r.reports| ==>
             r.reports[i].cost == CallCost(r.reports[i].durationMinutes)
             && r.reports[i].(cost := 0.0) == queried.value[i].(cost := 0.0)
  {
  }

  // ---------------------------------------------------------------------------
  // Dashboard metrics

  datatype Metrics = Metrics(totalCalls: nat, totalMinutes: real, totalCost: real, avgCostPerCall: real)

  function SumMinutes(rs: seq<Report>): real
  {
    if rs == [] then 0.0 else SumMinutes(rs[..|rs| - 1]) + rs[|rs| - 1].durationMinutes
  }

  function SumCost(rs: seq<Report>): real
  {
    if rs == [] then 0.0 else SumCost(rs[..|rs| - 1]) + rs[|rs| - 1].cost
  }

  /** `getDashboardMetrics` on the fetched reports. */
  function DashboardMetrics(rs: seq<Report>): (m: Metrics)
    ensures m.totalCalls == |rs|
    ensures m.totalMinutes == SumMinutes(rs) && m.totalCost == SumCost(rs)
    ensures |rs| == 0 ==> m.avgCostPerCall == 0.0 && m.totalCost == 0.0 && m.totalMinutes == 0.0
    ensures |rs| > 0 ==> m.avgCostPerCall * (|rs| as real) == m.totalCost
  {
    var total := SumCost(rs);
    Metrics(|rs|, SumMinutes(rs), total, if |rs| > 0 then total / (|rs| as real) else 0.0)
  }

  /** On fetched reports, whose costs were all recomputed, the total cost is the cost
      of the total minutes. */
  lemma {:induction false} TotalCostOfRecosted(rs: seq<Report>)
    requires forall r :: r in rs ==> r.cost == CallCost(r.durationMinutes)
    ensures SumCost(rs) == CallCost(SumMinutes(rs))
    ensures DashboardMetrics(rs).totalCost == CallCost(DashboardMetrics(rs).totalMinutes)
  {
    if rs != [] {
      var init := rs[..|rs| - 1];
      assert forall r :: r in init ==> r in rs;
      TotalCostOfRecosted(init);
      CallCostSpec(SumMinutes(init), rs[|rs| - 1].durationMinutes);
    }
  }

  // ---------------------------------------------------------------------------
  // Outcome chart

  function DisplayOf(r: Report): string
  {
    StatusDisplay(r.status, Prop(r.structuredData, "hasVoicemailMessage"))
  }

  function DisplayLabels(rs: seq<Report>): (labels: seq<string>)
    ensures |labels| == |rs|
    ensures forall i :: 0 <= i < |rs| ==> labels[i] == DisplayOf(rs[i])
  {
    seq(|rs|, i requires 0 <= i < |rs| => DisplayOf(rs[i]))
  }

  /** Number of occurrences of `x` in `s`. */
  function Occurrences(s: seq<string>, x: string): nat
  {
    if s == [] then 0 else Occurrences(s[..|s| - 1], x) + (if s[|s| - 1] == x then 1 else 0)
  }

  /** The distinct elements of `s`, in order of first occurrence. */
  function Distinct(s: seq<string>): (d: seq<string>)
    ensures forall x :: x in d <==> x in s
  {
    if s == [] then []
    else
      var d := Distinct(s[..|s| - 1]);
      assert forall x :: x in s <==> x in s[..|s| - 1] || x == s[|s| - 1];
      if s[|s| - 1] in d then d else d + [s[|s| - 1]]
  }

  predicate NoDuplicates(s: seq<string>)
  {
    forall i, j :: 0 <= i < j < |s| ==> s[i] != s[j]
  }

  lemma {:induction false} DistinctHasNoDuplicates(s: seq<string>)
    ensures NoDuplicates(Distinct(s))
  {
    if s != [] {
      DistinctHasNoDuplicates(s[..|s| - 1]);
    }
  }

  function Names(acc: seq<(string, nat)>): (names: seq<string>)
    ensures |names| == |acc|
    ensures forall i :: 0 <= i < |acc| ==> names[i] == acc[i].0
  {
    if acc == [] then [] else [acc[0].0] + Names(acc[1..])
  }

  function SumCounts(acc: seq<(string, nat)>): nat
  {
    if acc == [] then 0 else acc[0].1 + SumCounts(acc[1..])
  }

  /** `acc[label] = (acc[label] || 0) + 1` on an object whose keys keep insertion order. */
  function Bump(acc: seq<(string, nat)>, display: string): seq<(string, nat)>
  {
    if acc == [] then [(display, 1)]
    else if acc[0].0 == display then [(display, acc[0].1 + 1)] + acc[1..]
    else [acc[0]] + Bump(acc[1..], display)
  }

  lemma {:induction false} BumpSpec(acc: seq<(string, nat)>, display: string)
    requires NoDuplicates(Names(acc))
    ensures Names(Bump(acc, display)) == if display in Names(acc) then Names(acc) else Names(acc) + [display]
    ensures SumCounts(Bump(acc, display)) == SumCounts(acc) + 1
    ensures forall i :: 0 <= i < |acc| ==> Bump(acc, display)[i].1 == acc[i].1 + (if acc[i].0 == display then 1 else 0)
    ensures display !in Names(acc) ==> Bump(acc, display)[|acc|].1 == 1
  {
    if acc != [] && acc[0].0 != display {
      assert NoDuplicates(Names(acc[1..])) by {
        assert forall i :: 0 <= i < |acc| - 1 ==> Names(acc[1..])[i] == Names(acc)[i + 1];
      }
      BumpSpec(acc[1..], display);
      assert Names(acc) == [acc[0].0] + Names(acc[1..]);
    } else if acc != [] {
      assert Names(Bump(acc, display)) == [display] + Names(acc[1..]);
      forall i | 0 < i < |acc|
        ensures acc[i].0 != display
      {
        assert Names(acc)[0] == display && Names(acc)[i] == acc[i].0;
      }
    }
  }

  /** The `reduce` that counts reports per display label. */
  function Tally(labels: seq<string>): seq<(string, nat)>
  {
    if labels == [] then [] else Bump(Tally(labels[..|labels| - 1]), labels[|labels| - 1])
  }

  /** The tally lists each distinct label once, in order of first occurrence. */
  lemma {:induction false} TallyNames(labels: seq<string>)
    ensures Names(Tally(labels)) == Distinct(labels)
    ensures NoDuplicates(Names(Tally(labels)))
  {
    DistinctHasNoDuplicates(labels);
    if labels != [] {
      var init := labels[..|labels| - 1];
      TallyNames(init);
      BumpSpec(Tally(init), labels[|labels| - 1]);
    }
  }

  /** The counts of the tally add up to the number of labels. */
  lemma {:induction false} TallySum(labels: seq<string>)
    ensures SumCounts(Tally(labels)) == |labels|
  {
    if labels != [] {
      var init := labels[..|labels| - 1];
      TallySum(init);
      TallyNames(init);
      BumpSpec(Tally(init), labels[|labels| - 1]);
    }
  }

  /** Each tallied label carries its number of occurrences. */
  lemma {:induction false} TallyCounts(labels: seq<string>)
    ensures forall i :: 0 <= i < |Tally(labels)| ==> Tally(labels)[i].1 == Occurrences(labels, Tally(labels)[i].0)
  {
    if labels != [] {
      var init := labels[..|labels| - 1];
      var last := labels[|labels| - 1];
      TallyCounts(init);
      TallyNames(init);
      var ti := Tally(init);
      BumpSpec(ti, last);
      var t := Tally(labels);
      forall i | 0 <= i < |t|
        ensures t[i].1 == Occurrences(labels, t[i].0)
      {
        if i == |ti| {
          assert last !in init;
          OccurrencesAbsent(init, last);
        } else {
          assert Names(t)[i] == Names(ti)[i];
        }
      }
    }
  }

  /** The tally lists each distinct label once, in order of first occurrence, with
      its number of occurrences; the counts add up to the number of labels. */
  lemma TallySpec(labels: seq<string>)
    ensures Names(Tally(labels)) == Distinct(labels)
    ensures SumCounts(Tally(labels)) == |labels|
    ensures forall i :: 0 <= i < |Tally(labels)| ==> Tally(labels)[i].1 == Occurrences(labels, Tally(labels)[i].0)
  {
    TallyNames(labels);
    TallySum(labels);
    TallyCounts(labels);
  }

  lemma {:induction false} OccurrencesAbsent(s: seq<string>, x: string)
    requires x !in s
    ensures Occurrences(s, x) == 0
  {
    if s != [] {
      assert s[..|s| - 1] <= s;
      OccurrencesAbsent(s[..|s| - 1], x);
    }
  }

  datatype Outcome = Outcome(name: string, value: int, count: nat, color: string)

  /** `Math.round((count / total) * 100)`, or 0 for no reports. */
  function Percent(count: nat, total: nat): (p: int)
    ensures total == 0 ==> p == 0
    ensures count <= total ==> 0 <= p <= 100
  {
    if total > 0 then ((count as real / total as real) * 100.0 + 0.5).Floor else 0
  }

  /** One chart entry per tally entry. */
  function ToOutcomes(tally: seq<(string, nat)>, total: nat): (os: seq<Outcome>)
    ensures |os| == |tally|
    ensures forall i :: 0 <= i < |tally| ==>
              os[i] == Outcome(tally[i].0, Percent(tally[i].1, total), tally[i].1, StatusColor(tally[i].0))
  {
    seq(|tally|, i requires 0 <= i < |tally| =>
      Outcome(tally[i].0, Percent(tally[i].1, total), tally[i].1, StatusColor(tally[i].0)))
  }

  /** The empty-state chart: every label with a zero count. */
  function DefaultOutcomes(): (os: seq<Outcome>)
    ensures |os| == |Labels|
    ensures forall i :: 0 <= i < |Labels| ==> os[i] == Outcome(Labels[i], 0, 0, StatusColor(Labels[i]))
  {
    seq(|Labels|, i requires 0 <= i < |Labels| => Outcome(Labels[i], 0, 0, StatusColor(Labels[i])))
  }

  /** `getCallOutcomesData` on the fetched reports. */
  function CallOutcomes(rs: seq<Report>): seq<Outcome>
  {
    var tally := Tally(DisplayLabels(rs));
    if tally == [] then DefaultOutcomes() else ToOutcomes(tally, |rs|)
  }

  function OutcomeCounts(os: seq<Outcome>): nat
  {
    if os == [] then 0 else os[0].count + OutcomeCounts(os[1..])
  }

  lemma {:induction false} OutcomeCountsOfTally(tally: seq<(string, nat)>, total: nat)
    ensures OutcomeCounts(ToOutcomes(tally, total)) == SumCounts(tally)
  {
    if tally != [] {
      OutcomeCountsOfTally(tally[1..], total);
      assert ToOutcomes(tally, total)[1..] == ToOutcomes(tally[1..], total);
    }
  }

  /** Without reports the chart shows the six labels with zero counts; with
      reports it is built from the tally, which then is not empty. */
  lemma CallOutcomesShape(rs: seq<Report>)
    ensures |rs| == 0 ==> CallOutcomes(rs) == DefaultOutcomes()
    ensures |rs| > 0 ==> Tally(DisplayLabels(rs)) != [] && CallOutcomes(rs) == ToOutcomes(Tally(DisplayLabels(rs)), |rs|)
  {
    var labels := DisplayLabels(rs);
    TallySpec(labels);
    if |rs| > 0 {
      assert labels[0] in Distinct(labels);
    } else {
      assert labels == [];
    }
  }

  /** With reports, the chart's counts add up to the number of reports, and each
      entry counts the reports with its label, with a percentage in [0, 100] and
      the label's colour. */
  lemma CallOutcomesCounts(rs: seq<Report>)
    requires |rs| > 0
    ensures OutcomeCounts(CallOutcomes(rs)) == |rs|
    ensures forall i :: 0 <= i < |CallOutcomes(rs)| ==>
              var o := CallOutcomes(rs)[i];
              o.count == Occurrences(DisplayLabels(rs), o.name) && 0 <= o.value <= 100 && o.color == StatusColor(o.name)
  {
    var labels := DisplayLabels(rs);
    var tally := Tally(labels);
    CallOutcomesShape(rs);
    TallySpec(labels);
    OutcomeCountsOfTally(tally, |rs|);
    forall i | 0 <= i < |tally|
      ensures tally[i].1 <= |rs|
    {
      OccurrencesBound(labels, tally[i].0);
    }
  }

  /** With reports, the chart names each label that occurs, exactly once. */
  lemma CallOutcomesNames(rs: seq<Report>)
    requires |rs| > 0
    ensures forall display :: display in DisplayLabels(rs) <==>
              exists i :: 0 <= i < |CallOutcomes(rs)| && CallOutcomes(rs)[i].name == display
    ensures forall i, j :: 0 <= i < j < |CallOutcomes(rs)| ==> CallOutcomes(rs)[i].name != CallOutcomes(rs)[j].name
  {
    var labels := DisplayLabels(rs);
    var tally := Tally(labels);
    CallOutcomesShape(rs);
    TallySpec(labels);
    DistinctHasNoDuplicates(labels);
    var os := CallOutcomes(rs);
    assert forall i :: 0 <= i < |os| ==> os[i].name == Names(tally)[i];
    forall display | display in labels
      ensures exists i :: 0 <= i < |os| && os[i].name == display
    {
      var i :| 0 <= i < |Distinct(labels)| && Distinct(labels)[i] == display;
      assert os[i].name == display;
    }
  }

  lemma {:induction false} OccurrencesBound(s: seq<string>, x: string)
    ensures Occurrences(s, x) <= |s|
  {
    if s != [] {
      OccurrencesBound(s[..|s| - 1], x);
    }
  }

  // ---------------------------------------------------------------------------
  // Pickup rate

  predicate IsAnswered(r: Report)
  {
    DisplayOf(r) == "Completed" || DisplayOf(r) == "Left Voicemail"
  }

  function AnsweredCount(rs: seq<Report>): (n: nat)
    ensures n <= |rs|
  {
    if rs == [] then 0 else AnsweredCount(rs[..|rs| - 1]) + (if IsAnswered(rs[|rs| - 1]) then 1 else 0)
  }

  /** The answered calls are the reports the outcome chart shows as `Completed` or
      `Left Voicemail`. */
  lemma {:induction false} AnsweredCountOccurrences(rs: seq<Report>)
    ensures AnsweredCount(rs) ==
              Occurrences(DisplayLabels(rs), "Completed") + Occurrences(DisplayLabels(rs), "Left Voicemail")
  {
    if rs != [] {
      var init := rs[..|rs| - 1];
      AnsweredCountOccurrences(init);
      assert DisplayLabels(rs)[..|rs| - 1] == DisplayLabels(init);
    }
  }

  datatype Pickup = Pickup(pickupRate: real, totalCalls: nat, answeredCalls: nat, missedCalls: int)

  /** `Math.round(x * 10) / 10`. */
  function RoundToTenth(x: real): (r: real)
    ensures 0.0 <= x <= 100.0 ==> 0.0 <= r <= 100.0
    ensures x == 0.0 ==> r == 0.0
    ensures x == 100.0 ==> r == 100.0
  {
    var n := (x * 10.0 + 0.5).Floor;
    assert 0.0 <= x <= 100.0 ==> 0 <= n <= 1000 by {
      if 0.0 <= x <= 100.0 {
        assert 0.5 <= x * 10.0 + 0.5 < 1001.0;
      }
    }
    (n as real) / 10.0
  }

  /** Rounding to a tenth keeps the order of its arguments. */
  lemma RoundToTenthMonotone(x: real, y: real)
    requires x <= y
    ensures RoundToTenth(x) <= RoundToTenth(y)
  {
    assert (x * 10.0 + 0.5).Floor <= (y * 10.0 + 0.5).Floor;
  }

  /** The answered share in percent, before rounding; 0 for no calls. */
  function Share(answered: nat, total: nat): (x: real)
    requires answered <= total
    ensures 0.0 <= x <= 100.0
    ensures answered == 0 ==> x == 0.0
    ensures 0 < total == answered ==> x == 100.0
  {
    if total > 0 then
      var q := answered as real / total as real;
      assert 0.0 <= q <= 1.0 by {
        assert answered as real <= total as real;
      }
      q * 100.0
    else 0.0
  }

  /** `a/b <= c/d` for positive denominators, from the cross products. */
  lemma DivOrder(a: real, b: real, c: real, d: real)
    requires b > 0.0 && d > 0.0 && a * d <= c * b
    ensures a / b <= c / d
  {
    assert a / b == (a * d) / (b * d);
    assert c / d == (c * b) / (b * d);
  }

  /** One more answered call never lowers the share, one more missed call never
      raises it. */
  lemma ShareStep(answered: nat, total: nat)
    requires answered <= total
    ensures Share(answered, total) <= Share(answered + 1, total + 1)
    ensures Share(answered, total + 1) <= Share(answered, total)
  {
    if total > 0 {
      var a, n := answered as real, total as real;
      assert a * (n + 1.0) <= (a + 1.0) * n;
      DivOrder(a, n, a + 1.0, n + 1.0);
      assert a * n <= a * (n + 1.0);
      DivOrder(a, n + 1.0, a, n);
    }
  }

  /** `getPickupRateData` on the fetched outbound reports. */
  function PickupRate(rs: seq<Report>): (p: Pickup)
    ensures p.totalCalls == |rs|
    ensures p.answeredCalls == AnsweredCount(rs) <= p.totalCalls
    ensures p.missedCalls == p.totalCalls - p.answeredCalls >= 0
    ensures p.totalCalls == 0 ==> p.pickupRate == 0.0
    ensures 0.0 <= p.pickupRate <= 100.0
    ensures p.answeredCalls == 0 ==> p.pickupRate == 0.0
    ensures p.totalCalls > 0 && p.answeredCalls == p.totalCalls ==> p.pickupRate == 100.0
  {
    var total := |rs|;
    var answered := AnsweredCount(rs);
    Pickup(RoundToTenth(Share(answered, total)), total, answered, total - answered)
  }

  /** One more answered call never lowers the rate, and one more missed call never
      raises it. */
  lemma PickupRateStep(rs: seq<Report>, r: Report)
    ensures IsAnswered(r) ==> PickupRate(rs).pickupRate <= PickupRate(rs + [r]).pickupRate
    ensures !IsAnswered(r) ==> PickupRate(rs + [r]).pickupRate <= PickupRate(rs).pickupRate
  {
    var s := rs + [r];
    assert s[..|s| - 1] == rs;
    var a, n := AnsweredCount(rs), |rs|;
    ShareStep(a, n);
    if IsAnswered(r) {
      assert AnsweredCount(s) == a + 1;
      RoundToTenthMonotone(Share(a, n), Share(a + 1, n + 1));
    } else {
      assert AnsweredCount(s) == a;
      RoundToTenthMonotone(Share(a, n + 1), Share(a, n));
    }
  }

  /** A report counts as picked up exactly when the provider says a party ended the
      call or a voicemail was left. */
  lemma {:induction false} AnsweredCountSpec(rs: seq<Report>)
    ensures AnsweredCount(rs) == 0 <==> forall r :: r in rs ==>
              !(r.status in ["customer-ended-call", "assistant-ended-call"] ||
                (r.status == "voicemail" && Truthy(Prop(r.structuredData, "hasVoicemailMessage"))))
  {
    if rs != [] {
      var init := rs[..|rs| - 1];
      AnsweredCountSpec(init);
      assert forall r :: r in rs <==> r in init || r == rs[|rs| - 1];
    }
  }
}
