/** The calls table's own logic: the client-side filter over the loaded call
    reports, the per-agent choice of structured-data columns, and the rendering
    of structured-data values and field names. */
module CallsTable {
  import opened Wrappers
  import opened Json
  import opened JsString
  import opened CallReportsService
  import opened CallFilters

  // ---------------------------------------------------------------------------
  // The client-side filter

  /** `filters[key]`, `undefined` when the key is absent. */
  function FilterValue(f: Filters, key: string): Json
  {
    if key in f then f[key] else Undefined
  }

  /** The sentiment column as the row holds it: `null` when there is none. */
  function SentimentValue(s: Option<string>): Json
  {
    if s.Some? then Str(s.value) else Null
  }

  /** An exact-match selector: ignored when falsy or `'all'`, else `===`. */
  predicate SelectorPasses(selector: Json, value: Json)
  {
    !Truthy(selector) || selector == Str("all") || StrictEq(value, selector)
  }

  /** A phone-number filter: ignored when falsy, else a case-sensitive substring
      match. A truthy filter that is not a string matches nothing here. */
  predicate NumberPasses(selector: Json, number: string)
  {
    !Truthy(selector) || (selector.Str? && Contains(number, selector.s))
  }

  /** The structured-data filter: every truthy value in it must be `===` to the
      call's value under the same key. */
  predicate StructuredPasses(selector: Json, data: Json)
  {
    Truthy(selector) ==>
      forall key :: key in Entries(selector) && Truthy(Entries(selector)[key]) ==>
        StrictEq(Prop(data, key), Entries(selector)[key])
  }

  /** The `filteredCalls` predicate. */
  predicate Passes(f: Filters, call: Report)
  {
    && SelectorPasses(FilterValue(f, "agent"), Str(call.agent))
    && SelectorPasses(FilterValue(f, "callType"), Str(call.callType))
    && SelectorPasses(FilterValue(f, "status"), Str(call.status))
    && SelectorPasses(FilterValue(f, "sentiment"), SentimentValue(call.sentiment))
    && NumberPasses(FilterValue(f, "fromNumber"), call.fromNumber)
    && NumberPasses(FilterValue(f, "toNumber"), call.toNumber)
    && StructuredPasses(FilterValue(f, "structuredData"), call.structuredData)
  }

  /** `callReports.filter(...)`: the calls that pass, in their order. */
  function FilterCalls(calls: seq<Report>, f: Filters): (r: seq<Report>)
    ensures |r| <= |calls|
  {
    if calls == [] then []
    else (if Passes(f, calls[0]) then [calls[0]] else []) + FilterCalls(calls[1..], f)
  }

  /** A call is in the filtered list exactly when it was loaded and passes. */
  lemma {:induction false} FilterCallsMembers(calls: seq<Report>, f: Filters)
    ensures forall c :: c in FilterCalls(calls, f) <==> c in calls && Passes(f, c)
  {
    if calls != [] {
      FilterCallsMembers(calls[1..], f);
      assert forall c :: c in calls <==> c == calls[0] || c in calls[1..];
    }
  }

  /** The indices from `i` on whose call passes, in increasing order. */
  function KeptIndices(calls: seq<Report>, f: Filters, i: nat): (idx: seq<nat>)
    ensures forall k :: 0 <= k < |idx| ==> i <= idx[k] < |calls|
    ensures forall k, l :: 0 <= k < l < |idx| ==> idx[k] < idx[l]
    decreases |calls| - i
  {
    if i >= |calls| then []
    else (if Passes(f, calls[i]) then [i] else []) + KeptIndices(calls, f, i + 1)
  }

  /** The kept indices are exactly those, from `i` on, whose call passes. */
  lemma {:induction false} KeptIndicesSpec(calls: seq<Report>, f: Filters, i: nat)
    ensures forall j :: i <= j < |calls| ==> (j in KeptIndices(calls, f, i) <==> Passes(f, calls[j]))
    decreases |calls| - i
  {
    if i < |calls| {
      KeptIndicesSpec(calls, f, i + 1);
    }
  }

  /** The result is an order-preserving subsequence: it is the calls at a strictly
      increasing run of indices, and those indices are exactly the ones whose call
      passes. */
  lemma {:induction false} FilterCallsIndices(calls: seq<Report>, f: Filters, i: nat)
    requires i <= |calls|
    ensures |KeptIndices(calls, f, i)| == |FilterCalls(calls[i..], f)|
    ensures forall k :: 0 <= k < |KeptIndices(calls, f, i)| ==>
              calls[KeptIndices(calls, f, i)[k]] == FilterCalls(calls[i..], f)[k]
    decreases |calls| - i
  {
    if i < |calls| {
      FilterCallsIndices(calls, f, i + 1);
      var rest := KeptIndices(calls, f, i + 1);
      var tail := FilterCalls(calls[i + 1..], f);
      assert calls[i..][1..] == calls[i + 1..];
      var idx := KeptIndices(calls, f, i);
      var r := FilterCalls(calls[i..], f);
      if Passes(f, calls[i]) {
        assert r == [calls[i]] + tail;
        assert idx == [i] + rest;
        forall k | 1 <= k < |idx|
          ensures calls[idx[k]] == r[k]
        {
          assert idx[k] == rest[k - 1] && r[k] == tail[k - 1];
        }
      } else {
        assert r == tail;
        assert idx == rest;
      }
    }
  }

  /** Filtering what has been filtered changes nothing. */
  lemma {:induction false} FilterCallsIdempotent(calls: seq<Report>, f: Filters)
    ensures FilterCalls(FilterCalls(calls, f), f) == FilterCalls(calls, f)
  {
    if calls != [] {
      FilterCallsIdempotent(calls[1..], f);
      if Passes(f, calls[0]) {
        var r := FilterCalls(calls, f);
        assert r == [calls[0]] + FilterCalls(calls[1..], f);
        assert r[0] == calls[0] && r[1..] == FilterCalls(calls[1..], f);
        assert FilterCalls(r, f) == [r[0]] + FilterCalls(r[1..], f);
      } else {
        assert FilterCalls(calls, f) == FilterCalls(calls[1..], f);
      }
    }
  }

  /** The filter state the panel starts from, or hands on after the `'all'`
      rewrite, lets every call through. */
  lemma InitialFiltersPassAll(calls: seq<Report>)
    ensures FilterCalls(calls, InitialFilters) == calls
    ensures FilterCalls(calls, ApiFilters(InitialFilters)) == calls
  {
    forall c
      ensures Passes(InitialFilters, c) && Passes(ApiFilters(InitialFilters), c)
    {
      InitialPasses(c);
    }
    AllPass(calls, InitialFilters);
    AllPass(calls, ApiFilters(InitialFilters));
  }

  /** One call against the initial filters, before and after the rewrite. */
  lemma InitialPasses(c: Report)
    ensures Passes(InitialFilters, c) && Passes(ApiFilters(InitialFilters), c)
  {
    var api := ApiFilters(InitialFilters);
    ClearedApiFilters();
    assert FilterValue(api, "agent") == Str("");
    assert FilterValue(api, "callType") == Str("");
    assert FilterValue(api, "status") == Str("");
    assert FilterValue(api, "sentiment") == Str("");
    assert FilterValue(api, "fromNumber") == Str("");
    assert FilterValue(api, "toNumber") == Str("");
    assert FilterValue(api, "structuredData") == Obj(map[]);
  }

  /** When every call passes, the filter returns the list unchanged. */
  lemma {:induction false} AllPass(calls: seq<Report>, f: Filters)
    requires forall c :: c in calls ==> Passes(f, c)
    ensures FilterCalls(calls, f) == calls
  {
    if calls != [] {
      AllPass(calls[1..], f);
    }
  }

  // ---------------------------------------------------------------------------
  // Structured-data columns

  /** `agentStructuredFields`: the columns offered for each known agent. */
  const AgentStructuredFields: map<string, seq<string>> := map[
    "Debt Recovery (Outbound)" := ["payment_amount", "next_payment_date", "payment_commitment", "contact_preference"],
    "Vacation Loan Promo (outbound)" := ["loan_interest", "loan_amount", "qualification_status", "follow_up_needed"],
    "Loan Payment Reminder (Outbound)" := ["payment_status", "payment_method", "late_fee_waived", "next_due_date"],
    "FlowAIx Lead Call (outbound)" := ["name", "timeframe", "email_address", "service_interest"],
    "Auto Loan Promo (outbound)" := ["loan_interest", "loan_amount", "qualification_status", "follow_up_needed"],
    "all" := ["name", "timeframe", "email_address", "service_interest", "payment_amount", "loan_interest"]]

  /** `visibleStructuredFields`: the selected agent's columns, with the `'all'`
      list for no agent or an agent the table does not know. */
  function VisibleFields(agent: Json): (r: seq<string>)
    ensures agent.Str? && agent.s in AgentStructuredFields ==> r == AgentStructuredFields[agent.s]
    ensures !(agent.Str? && agent.s in AgentStructuredFields) ==> r == AgentStructuredFields["all"]
    ensures |r| > 0
  {
    var selected := Or(agent, Str("all"));
    if selected.Str? && selected.s in AgentStructuredFields then AgentStructuredFields[selected.s]
    else AgentStructuredFields["all"]
  }

  /** The columns the table actually draws: the first three visible ones. */
  function ShownFields(agent: Json): (r: seq<string>)
    ensures |r| == if |VisibleFields(agent)| < 3 then |VisibleFields(agent)| else 3
    ensures r == VisibleFields(agent)[..|r|]
  {
    var v := VisibleFields(agent);
    if |v| < 3 then v else v[..3]
  }

  /** Every agent the table knows gets exactly three columns. */
  lemma ShownFieldsCount(agent: Json)
    ensures |ShownFields(agent)| == 3
  {
    var v := VisibleFields(agent);
    if agent.Str? && agent.s in AgentStructuredFields {
      var a := agent.s;
      assert a in AgentStructuredFields.Keys;
      assert |AgentStructuredFields[a]| >= 3;
    }
  }

  // ---------------------------------------------------------------------------
  // Rendering

  /** What a structured-data cell shows: a fixed text, a number's decimal form, or
      `String(v)` of an array. */
  datatype Cell = Text(text: string) | Decimal(n: real) | Stringified(v: Json)

  /** `renderStructuredDataValue`. */
  function RenderValue(v: Json): (r: Cell)
    ensures v.Bool? ==> r == Text(if v.b then "Yes" else "No")
    ensures v.Num? ==> r == Decimal(v.n)
    ensures r == Text("N/A") <==> v in {Null, Undefined, Str(""), Str("N/A")}
    ensures v.Str? && v.s != "" ==> r == Text(v.s)
  {
    match v
    case Bool(b) => Text(if b then "Yes" else "No")
    case Num(n) => Decimal(n)
    case Null => Text("N/A")
    case Undefined => Text("N/A")
    case Str(s) => if s == "" then Text("N/A") else Text(s)
    case Obj(_) => Text("[object Object]")
    case Arr(_) => Stringified(v)
  }

  predicate IsUpper(c: char)
  {
    'A' <= c <= 'Z'
  }

  function CountUpper(s: string): nat
  {
    if s == [] then 0 else (if IsUpper(s[0]) then 1 else 0) + CountUpper(s[1..])
  }

  /** `replace(/([A-Z])/g, ' $1')`. */
  function SpaceBeforeCaps(s: string): string
  {
    if s == [] then [] else (if IsUpper(s[0]) then [' ', s[0]] else [s[0]]) + SpaceBeforeCaps(s[1..])
  }

  /** A character the regular expression `.` does not match. */
  predicate IsLineTerminator(c: char)
  {
    c == '\n' || c == '\r' || c == ' ' || c == ' '
  }

  /** `replace(/^./, str => str.toUpperCase())`. */
  function UpperFirst(s: string): (r: string)
    ensures |r| == |s|
    ensures forall i :: 0 < i < |s| ==> r[i] == s[i]
    ensures s != [] ==> r[0] == if IsLineTerminator(s[0]) then s[0] else UpperChar(s[0])
  {
    if s == [] || IsLineTerminator(s[0]) then s else [UpperChar(s[0])] + s[1..]
  }

  /** `replace(/_/g, ' ')`. */
  function UnderscoresToSpaces(s: string): (r: string)
    ensures |r| == |s|
    ensures forall i :: 0 <= i < |s| ==> r[i] == if s[i] == '_' then ' ' else s[i]
  {
    seq(|s|, i requires 0 <= i < |s| => if s[i] == '_' then ' ' else s[i])
  }

  /** `formatFieldName`. */
  function FormatFieldName(s: string): string
  {
    UnderscoresToSpaces(UpperFirst(SpaceBeforeCaps(s)))
  }

  /** One space is inserted before each capital, and every capital after the
      first character is preceded by a space. */
  lemma {:induction false} SpaceBeforeCapsSpec(s: string)
    ensures |SpaceBeforeCaps(s)| == |s| + CountUpper(s)
    ensures s != [] ==> SpaceBeforeCaps(s)[0] == if IsUpper(s[0]) then ' ' else s[0]
    ensures forall i :: 0 < i < |SpaceBeforeCaps(s)| && IsUpper(SpaceBeforeCaps(s)[i]) ==> SpaceBeforeCaps(s)[i - 1] == ' '
    ensures forall i :: 0 <= i < |SpaceBeforeCaps(s)| && SpaceBeforeCaps(s)[i] == '_' ==> '_' in s
  {
    if s != [] {
      SpaceBeforeCapsSpec(s[1..]);
      var head := if IsUpper(s[0]) then [' ', s[0]] else [s[0]];
      var tail := SpaceBeforeCaps(s[1..]);
      assert SpaceBeforeCaps(s) == head + tail;
      assert tail != [] ==> !IsUpper(tail[0]);
      forall i | 0 < i < |head + tail| && IsUpper((head + tail)[i])
        ensures (head + tail)[i - 1] == ' '
      {
        if i > |head| {
          assert (head + tail)[i] == tail[i - |head|];
          assert (head + tail)[i - 1] == tail[i - |head| - 1];
        }
      }
      forall i | 0 <= i < |head + tail| && (head + tail)[i] == '_'
        ensures '_' in s
      {
        if i >= |head| {
          assert tail[i - |head|] == '_';
          assert '_' in s[1..];
        }
      }
    }
  }

  /** Where input character `i` lands once a space has been put before every
      capital up to and including it. */
  function CapsPosition(s: string, i: nat): nat
    requires i < |s|
  {
    i + CountUpper(s[..i + 1])
  }

  /** Every input character survives, in order, at its shifted position, and a
      capital has the inserted space right before it. */
  lemma {:induction false} SpaceBeforeCapsKeeps(s: string)
    ensures forall i :: 0 <= i < |s| ==>
              && CapsPosition(s, i) < |SpaceBeforeCaps(s)|
              && SpaceBeforeCaps(s)[CapsPosition(s, i)] == s[i]
              && (IsUpper(s[i]) ==> 0 < CapsPosition(s, i) && SpaceBeforeCaps(s)[CapsPosition(s, i) - 1] == ' ')
  {
    if s != [] {
      var t := s[1..];
      SpaceBeforeCapsKeeps(t);
      var head := if IsUpper(s[0]) then [' ', s[0]] else [s[0]];
      assert SpaceBeforeCaps(s) == head + SpaceBeforeCaps(t);
      var r := head + SpaceBeforeCaps(t);
      forall i | 0 <= i < |s|
        ensures CapsPosition(s, i) < |r| && r[CapsPosition(s, i)] == s[i]
        ensures IsUpper(s[i]) ==> 0 < CapsPosition(s, i) && r[CapsPosition(s, i) - 1] == ' '
      {
        if i == 0 {
          assert s[..1] == [s[0]];
          assert CapsPosition(s, 0) == |head| - 1;
        } else {
          assert s[..i + 1][1..] == t[..i];
          var p := CapsPosition(s, i);
          assert p == |head| + CapsPosition(t, i - 1);
          assert r[p] == SpaceBeforeCaps(t)[CapsPosition(t, i - 1)];
          if IsUpper(s[i]) {
            assert r[p - 1] == SpaceBeforeCaps(t)[CapsPosition(t, i - 1) - 1];
          }
        }
      }
    }
  }

  /** The input's characters survive at their shifted positions: the first one
      upper-cased, every `_` turned into a space, and every capital preceded by a
      space. */
  lemma FormatFieldNameKeeps(s: string)
    ensures forall i :: 0 <= i < |s| ==>
              && CapsPosition(s, i) < |FormatFieldName(s)|
              && FormatFieldName(s)[CapsPosition(s, i)] ==
                   (if s[i] == '_' then ' ' else if i == 0 then UpperChar(s[i]) else s[i])
              && (IsUpper(s[i]) ==> 0 < CapsPosition(s, i) && FormatFieldName(s)[CapsPosition(s, i) - 1] == ' ')
  {
    SpaceBeforeCapsKeeps(s);
    SpaceBeforeCapsSpec(s);
    var a := SpaceBeforeCaps(s);
    var r := FormatFieldName(s);
    forall i | 0 <= i < |s|
      ensures CapsPosition(s, i) < |r|
      ensures r[CapsPosition(s, i)] == (if s[i] == '_' then ' ' else if i == 0 then UpperChar(s[i]) else s[i])
      ensures IsUpper(s[i]) ==> 0 < CapsPosition(s, i) && r[CapsPosition(s, i) - 1] == ' '
    {
      var p := CapsPosition(s, i);
      if i == 0 {
        // A capital first character moves to position 1, behind the inserted space.
        assert p == (if IsUpper(s[0]) then 1 else 0) by {
          var one := s[..1];
          assert one[0] == s[0] && one[1..] == [];
          assert CountUpper(one) == (if IsUpper(one[0]) then 1 else 0) + CountUpper(one[1..]);
        }
      }
    }
  }

  /** A formatted field name has one extra character per capital, no underscore,
      a space before every capital after the first character, and never starts
      with a lower-case letter. */
  lemma FormatFieldNameSpec(s: string)
    ensures |FormatFieldName(s)| == |s| + CountUpper(s)
    ensures '_' !in FormatFieldName(s)
    ensures forall i :: 0 < i < |FormatFieldName(s)| && IsUpper(FormatFieldName(s)[i]) ==> FormatFieldName(s)[i - 1] == ' '
    ensures FormatFieldName(s) != [] ==> !('a' <= FormatFieldName(s)[0] <= 'z')
  {
    SpaceBeforeCapsSpec(s);
    var a := SpaceBeforeCaps(s);
    var b := UpperFirst(a);
    var r := FormatFieldName(s);
    forall i | 0 < i < |r| && IsUpper(r[i])
      ensures r[i - 1] == ' '
    {
      assert b[i] == a[i];
      if i - 1 == 0 {
        assert a[0] == ' ';
      }
    }
  }
}
