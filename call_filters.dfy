/** The dashboard's filter panel: the filter object it keeps, the rewrite of
    `'all'` to `''` before the filters are handed on, the structured-data filter
    edits, and the discovery of structured-data fields and their options from the
    loaded call reports. */
module CallFilters {
  import opened Json
  import opened CallReportsService

  /** A filter object: top-level keys to values. */
  type Filters = map<string, Json>

  // ---------------------------------------------------------------------------
  // The filter object

  /** The filter state the panel starts from. */
  const InitialFilters: Filters := map[
    "agent" := Str("all"), "callType" := Str("all"), "status" := Str("all"), "sentiment" := Str("all"),
    "fromNumber" := Str(""), "toNumber" := Str(""), "dateFrom" := Null, "dateTo" := Null,
    "structuredData" := Obj(map[]), "campaignId" := Str("all")]

  /** The object `clearFilters` builds. */
  function ClearedFilters(): (f: Filters)
    ensures f == InitialFilters
  {
    map[
      "agent" := Str("all"), "callType" := Str("all"), "status" := Str("all"), "sentiment" := Str("all"),
      "fromNumber" := Str(""), "toNumber" := Str(""), "dateFrom" := Null, "dateTo" := Null,
      "structuredData" := Obj(map[]), "campaignId" := Str("all")]
  }

  /** One value after the rewrite. */
  function ApiValue(v: Json): Json
  {
    if v == Str("all") then Str("") else v
  }

  /** The filters as handed on: every top-level `'all'` replaced by `''`. */
  function ApiFilters(f: Filters): Filters
  {
    map k | k in f :: ApiValue(f[k])
  }

  /** The key loop of `applyFilters` and `clearFilters` over a copy of the filters. */
  method ToApiFilters(filters: Filters) returns (api: Filters)
    ensures api == ApiFilters(filters)
    ensures api.Keys == filters.Keys
    ensures forall k :: k in filters && filters[k] == Str("all") ==> api[k] == Str("")
    ensures forall k :: k in filters && filters[k] != Str("all") ==> api[k] == filters[k]
  {
    api := filters;
    var keys := filters.Keys;
    while keys != {}
      invariant keys <= filters.Keys && api.Keys == filters.Keys
      invariant forall k :: k in filters && k !in keys ==> api[k] == ApiValue(filters[k])
      invariant forall k :: k in keys ==> api[k] == filters[k]
      decreases |keys|
    {
      var k :| k in keys;
      if api[k] == Str("all") {
        api := api[k := Str("")];
      }
      keys := keys - {k};
    }
  }

  /** After the rewrite no top-level value is `'all'`, and rewriting again changes
      nothing. */
  lemma ApiFiltersSpec(f: Filters)
    ensures forall k :: k in ApiFilters(f) ==> ApiFilters(f)[k] != Str("all")
    ensures ApiFilters(ApiFilters(f)) == ApiFilters(f)
  {
  }

  /** What `clearFilters` hands on: the initial state with its four `'all'`
      selectors and the campaign selector blanked. */
  lemma ClearedApiFilters()
    ensures ApiFilters(ClearedFilters()) ==
      InitialFilters["agent" := Str("")]["callType" := Str("")]["status" := Str("")]["sentiment" := Str("")]["campaignId" := Str("")]
  {
  }

  /** `updateStructuredData(field, value)`: a copy of the structured-data filter with
      the field set to a non-empty value other than `'all'`, or removed. */
  function UpdateStructuredData(f: Filters, field: string, value: string): (r: Filters)
    ensures r.Keys == f.Keys + {"structuredData"}
    ensures forall k :: k in f && k != "structuredData" ==> r[k] == f[k]
    ensures r["structuredData"].Obj?
    ensures var sd := r["structuredData"].fields;
      var before := Entries(if "structuredData" in f then f["structuredData"] else Undefined);
      && (value != "" && value != "all" ==> field in sd && sd[field] == Str(value))
      && (value == "" || value == "all" ==> field !in sd)
      && forall k :: k != field ==> (k in sd <==> k in before) && (k in sd ==> sd[k] == before[k])
  {
    var before := Entries(if "structuredData" in f then f["structuredData"] else Undefined);
    var sd := if value != "" && value != "all" then before[field := Str(value)] else before - {field};
    f["structuredData" := Obj(sd)]
  }

  /** Only the last edit of a field counts: editing it twice is editing it once with
      the second value. */
  lemma UpdateStructuredDataLastWins(f: Filters, field: string, v1: string, v2: string)
    ensures UpdateStructuredData(UpdateStructuredData(f, field, v1), field, v2) == UpdateStructuredData(f, field, v2)
  {
    var once := UpdateStructuredData(f, field, v2);
    var twice := UpdateStructuredData(UpdateStructuredData(f, field, v1), field, v2);
    assert twice["structuredData"].fields == once["structuredData"].fields;
  }

  // ---------------------------------------------------------------------------
  // Structured-field discovery

  /** The calls whose fields are collected: those of the selected agent, or all of
      them when no agent is selected. */
  function RelevantCalls(calls: seq<Report>, agent: Json): (r: seq<Report>)
    ensures forall c :: c in r ==> c in calls
    ensures Truthy(agent) && agent != Str("all") ==> forall c :: c in calls ==> (c in r <==> Str(c.agent) == agent)
    ensures !(Truthy(agent) && agent != Str("all")) ==> r == calls
  {
    if !(Truthy(agent) && agent != Str("all")) then calls
    else if calls == [] then []
    else (if Str(calls[0].agent) == agent then [calls[0]] else []) + RelevantCalls(calls[1..], agent)
  }

  /** A value the field sets keep: not `null`, `undefined` or `''`. */
  predicate Collectible(v: Json)
  {
    v != Null && v != Undefined && v != Str("")
  }

  /** `set.add(v)` on a `Set` kept in insertion order: equal primitives are stored
      once; arrays and objects, each a fresh reference, are always added. */
  function AddValue(vals: seq<Json>, v: Json): (r: seq<Json>)
    ensures r == vals || r == vals + [v]
  {
    if !Collectible(v) || (IsPrimitive(v) && v in vals) then vals else vals + [v]
  }

  /** No primitive value occurs twice, as in a `Set`. */
  predicate NoRepeatedPrimitive(vals: seq<Json>)
  {
    forall i, j :: 0 <= i < j < |vals| ==> !StrictEq(vals[i], vals[j])
  }

  /** The structured data of each call, as `Object.entries` lists it (nothing for a
      call whose structured data is missing or not an object). */
  function DataOf(calls: seq<Report>): (ds: seq<map<string, Json>>)
    ensures |ds| == |calls|
    ensures forall i :: 0 <= i < |calls| ==> ds[i] == Entries(calls[i].structuredData)
  {
    seq(|calls|, i requires 0 <= i < |calls| => Entries(calls[i].structuredData))
  }

  /** The set a field has collected so far (none yet: empty). */
  function Get(fields: map<string, seq<Json>>, k: string): seq<Json>
  {
    if k in fields then fields[k] else []
  }

  /** The field map after one more call's structured data has been walked: every
      key of it is present, and its value has been offered to the key's set. */
  function AddCall(fields: map<string, seq<Json>>, e: map<string, Json>): (r: map<string, seq<Json>>)
    ensures r.Keys == fields.Keys + e.Keys
    ensures forall k :: k in r && k !in e ==> r[k] == fields[k]
    ensures forall k :: k in e ==> r[k] == AddValue(Get(fields, k), e[k])
  {
    map k | k in fields.Keys + e.Keys :: if k in e then AddValue(Get(fields, k), e[k]) else fields[k]
  }

  /** `fieldsMap` once the given structured data have been walked in order. */
  function FieldValues(ds: seq<map<string, Json>>): map<string, seq<Json>>
  {
    if ds == [] then map[]
    else AddCall(FieldValues(ds[..|ds| - 1]), ds[|ds| - 1])
  }

  /** Some call has field `k`. */
  predicate HasField(ds: seq<map<string, Json>>, k: string)
  {
    exists i :: 0 <= i < |ds| && k in ds[i]
  }

  /** Some call has value `v` under field `k`. */
  predicate HasValue(ds: seq<map<string, Json>>, k: string, v: Json)
  {
    exists i :: 0 <= i < |ds| && k in ds[i] && ds[i][k] == v
  }

  /** A field is in the map exactly when some call's structured data has it, even
      when none of its values is collectible. */
  lemma {:induction false} FieldValuesKeys(ds: seq<map<string, Json>>)
    ensures forall k :: k in FieldValues(ds) <==> HasField(ds, k)
  {
    if ds != [] {
      var init := ds[..|ds| - 1];
      FieldValuesKeys(init);
      forall k
        ensures HasField(ds, k) <==> HasField(init, k) || k in ds[|ds| - 1]
      {
        if HasField(init, k) {
          var i :| 0 <= i < |init| && k in init[i];
          assert ds[i] == init[i];
        }
        if HasField(ds, k) && k !in ds[|ds| - 1] {
          var i :| 0 <= i < |ds| && k in ds[i];
          assert init[i] == ds[i];
        }
      }
    }
  }

  /** Every collected value is collectible and was seen under its field. */
  lemma {:induction false} FieldValuesSound(ds: seq<map<string, Json>>)
    ensures forall k, v :: k in FieldValues(ds) && v in FieldValues(ds)[k] ==> Collectible(v) && HasValue(ds, k, v)
  {
    if ds != [] {
      var init := ds[..|ds| - 1];
      var e := ds[|ds| - 1];
      FieldValuesSound(init);
      var before := FieldValues(init);
      forall k, v | k in FieldValues(ds) && v in FieldValues(ds)[k]
        ensures Collectible(v) && HasValue(ds, k, v)
      {
        if k in before && v in before[k] {
          assert HasValue(init, k, v);
          var i :| 0 <= i < |init| && k in init[i] && init[i][k] == v;
          assert ds[i] == init[i];
        } else {
          assert k in e && v == e[k];
          assert HasValue(ds, k, v) by { assert ds[|ds| - 1] == e; }
        }
      }
    }
  }

  /** No primitive is in a field's set twice. */
  lemma {:induction false} FieldValuesNoRepeat(ds: seq<map<string, Json>>)
    ensures forall k :: k in FieldValues(ds) ==> NoRepeatedPrimitive(FieldValues(ds)[k])
  {
    if ds != [] {
      var init := ds[..|ds| - 1];
      var e := ds[|ds| - 1];
      FieldValuesNoRepeat(init);
      var before := FieldValues(init);
      forall k | k in e
        ensures NoRepeatedPrimitive(FieldValues(ds)[k])
      {
        AddValueKeepsNoRepeat(Get(before, k), e[k]);
      }
    }
  }

  /** Every collectible value seen under a field ends up in the field's set (a
      primitive seen again is the one already there). */
  lemma {:induction false} FieldValuesComplete(ds: seq<map<string, Json>>)
    ensures forall k, v :: HasValue(ds, k, v) && Collectible(v) ==> k in FieldValues(ds) && v in FieldValues(ds)[k]
  {
    if ds != [] {
      var init := ds[..|ds| - 1];
      var e := ds[|ds| - 1];
      FieldValuesComplete(init);
      forall k, v | HasValue(ds, k, v) && Collectible(v)
        ensures k in FieldValues(ds) && v in FieldValues(ds)[k]
      {
        var i :| 0 <= i < |ds| && k in ds[i] && ds[i][k] == v;
        if i < |init| {
          assert init[i] == ds[i];
          assert HasValue(init, k, v);
          CompleteStep(FieldValues(init), e, k, v);
        } else {
          AddValueKeeps(Get(FieldValues(init), k), v, v);
        }
      }
    }
  }

  /** A value already collected under `k` stays there after one more call. */
  lemma CompleteStep(before: map<string, seq<Json>>, e: map<string, Json>, k: string, v: Json)
    requires k in before && v in before[k]
    ensures k in AddCall(before, e) && v in AddCall(before, e)[k]
  {
    if k in e {
      AddValueKeeps(before[k], e[k], v);
    }
  }

  /** Offering a value keeps what the set had and, when collectible, the value. */
  lemma AddValueKeeps(vals: seq<Json>, v: Json, x: Json)
    requires x in vals || (x == v && Collectible(v))
    ensures x in AddValue(vals, v)
  {
  }

  lemma AddValueKeepsNoRepeat(vals: seq<Json>, v: Json)
    requires NoRepeatedPrimitive(vals)
    ensures NoRepeatedPrimitive(AddValue(vals, v))
    ensures forall x :: x in vals ==> x in AddValue(vals, v)
  {
    var r := AddValue(vals, v);
    if r != vals {
      forall i, j | 0 <= i < j < |r|
        ensures !StrictEq(r[i], r[j])
      {
        if j == |vals| {
          assert r[i] == vals[i];
        }
      }
    }
  }

  /** How the panel offers a field: a choice among its values, or free text. */
  datatype FieldKind = Options(values: seq<Json>) | FreeText

  function KindOf(vals: seq<Json>): (k: FieldKind)
    ensures k.Options? <==> 1 < |vals| <= 20
    ensures k.Options? ==> k.values == vals
  {
    if 1 < |vals| && |vals| <= 20 then Options(vals) else FreeText
  }

  /** `extractStructuredDataFields`: walk the relevant calls, then classify each field. */
  method ExtractStructuredDataFields(calls: seq<Report>, agent: Json) returns (fields: map<string, FieldKind>)
    ensures forall k :: k in fields <==> k in FieldValues(DataOf(RelevantCalls(calls, agent)))
    ensures forall k :: k in fields ==> fields[k] == KindOf(FieldValues(DataOf(RelevantCalls(calls, agent)))[k])
  {
    var ds := DataOf(RelevantCalls(calls, agent));
    var fieldsMap := WalkCalls(ds);
    fields := map[];
    var pending := fieldsMap.Keys;
    while pending != {}
      invariant pending <= fieldsMap.Keys
      invariant forall k :: k in fields <==> k in fieldsMap && k !in pending
      invariant forall k :: k in fields ==> fields[k] == KindOf(fieldsMap[k])
      decreases pending
    {
      var field :| field in pending;
      fields := fields[field := KindOf(fieldsMap[field])];
      pending := pending - {field};
    }
  }

  /** The outer `forEach` over the relevant calls. */
  method WalkCalls(ds: seq<map<string, Json>>) returns (fieldsMap: map<string, seq<Json>>)
    ensures fieldsMap == FieldValues(ds)
  {
    fieldsMap := map[];
    for i := 0 to |ds|
      invariant fieldsMap == FieldValues(ds[..i])
    {
      fieldsMap := AddEntries(fieldsMap, ds[i]);
      assert ds[..i + 1][..i] == ds[..i];
    }
    assert ds[..|ds|] == ds;
  }

  /** The inner `forEach` over one call's structured-data entries. */
  method AddEntries(fieldsMap0: map<string, seq<Json>>, e: map<string, Json>) returns (fieldsMap: map<string, seq<Json>>)
    ensures fieldsMap == AddCall(fieldsMap0, e)
  {
    fieldsMap := fieldsMap0;
    var pending := e.Keys;
    while pending != {}
      invariant pending <= e.Keys
      invariant forall k :: k in fieldsMap <==> k in fieldsMap0 || (k in e && k !in pending)
      invariant forall k :: k in fieldsMap ==>
                  fieldsMap[k] == if k in e && k !in pending then AddValue(Get(fieldsMap0, k), e[k]) else fieldsMap0[k]
      decreases pending
    {
      var field :| field in pending;
      fieldsMap := fieldsMap[field := AddValue(Get(fieldsMap, field), e[field])];
      pending := pending - {field};
    }
    ghost var r := AddCall(fieldsMap0, e);
    assert fieldsMap.Keys == r.Keys;
  }
}
