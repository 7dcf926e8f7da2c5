/** The assistant list's de-duplication by `assistant_id`: a `Map` is built from
    the loaded rows keyed by their assistant id, and its values are listed. A JS
    `Map` keeps its keys in first-insertion order while a repeated `set` replaces
    the value. */
module AssistantDedup {
  import opened Wrappers

  /** An assistant row as the list loads it. */
  datatype Assistant = Assistant(id: string, assistantId: string, name: string, clientId: Option<string>, isActive: bool)

  /** A JS `Map` from assistant id to row: the keys in insertion order and the
      current value of each. */
  datatype IdMap = IdMap(keys: seq<string>, values: map<string, Assistant>)

  /** The keys are distinct and are exactly the ids with a value. */
  ghost predicate Valid(m: IdMap)
  {
    && (forall i, j :: 0 <= i < j < |m.keys| ==> m.keys[i] != m.keys[j])
    && (forall k :: k in m.values <==> k in m.keys)
  }

  /** `map.set(a.assistant_id, a)`. */
  function Set(m: IdMap, a: Assistant): (r: IdMap)
    requires Valid(m)
    ensures Valid(r)
    ensures r.values == m.values[a.assistantId := a]
    ensures r.keys == if a.assistantId in m.values then m.keys else m.keys + [a.assistantId]
  {
    if a.assistantId in m.values then IdMap(m.keys, m.values[a.assistantId := a])
    else IdMap(m.keys + [a.assistantId], m.values[a.assistantId := a])
  }

  /** `new Map(assistants.map(a => [a.assistant_id, a]))`: each row set in turn. */
  function Build(rows: seq<Assistant>): (m: IdMap)
    ensures Valid(m)
  {
    if rows == [] then IdMap([], map[]) else Set(Build(rows[..|rows| - 1]), rows[|rows| - 1])
  }

  /** `Array.from(map.values())`: the values in key order. */
  function Values(m: IdMap): (r: seq<Assistant>)
    requires Valid(m)
    ensures |r| == |m.keys|
    ensures forall i :: 0 <= i < |r| ==> r[i] == m.values[m.keys[i]]
  {
    seq(|m.keys|, i requires 0 <= i < |m.keys| => m.values[m.keys[i]])
  }

  /** `uniqueAssistants`. */
  function UniqueAssistants(rows: seq<Assistant>): seq<Assistant>
  {
    Values(Build(rows))
  }

  /** The index of the first row with the id, or -1. */
  function FirstIndex(rows: seq<Assistant>, id: string): (k: int)
    ensures -1 <= k < |rows|
    ensures k >= 0 ==> rows[k].assistantId == id && forall j :: 0 <= j < k ==> rows[j].assistantId != id
    ensures k == -1 ==> forall j :: 0 <= j < |rows| ==> rows[j].assistantId != id
  {
    if rows == [] then -1
    else
      var p := FirstIndex(rows[..|rows| - 1], id);
      if p >= 0 then p else if rows[|rows| - 1].assistantId == id then |rows| - 1 else -1
  }

  /** The index of the last row with the id, or -1. */
  function LastIndex(rows: seq<Assistant>, id: string): (k: int)
    ensures -1 <= k < |rows|
    ensures k >= 0 ==> rows[k].assistantId == id && forall j :: k < j < |rows| ==> rows[j].assistantId != id
    ensures k == -1 ==> forall j :: 0 <= j < |rows| ==> rows[j].assistantId != id
  {
    if rows == [] then -1
    else if rows[|rows| - 1].assistantId == id then |rows| - 1
    else LastIndex(rows[..|rows| - 1], id)
  }

  /** No two rows share an assistant id. */
  predicate IdsDistinct(rows: seq<Assistant>)
  {
    forall i, j :: 0 <= i < j < |rows| ==> rows[i].assistantId != rows[j].assistantId
  }

  /** Extending the rows moves no id's first occurrence. */
  lemma FirstIndexStep(rows: seq<Assistant>, id: string)
    requires rows != []
    ensures FirstIndex(rows, id) ==
              if FirstIndex(rows[..|rows| - 1], id) >= 0 then FirstIndex(rows[..|rows| - 1], id)
              else if rows[|rows| - 1].assistantId == id then |rows| - 1 else -1
  {
  }

  /** The map has a key for exactly the ids that occur. */
  lemma {:induction false} BuildKeys(rows: seq<Assistant>)
    ensures forall id :: id in Build(rows).values <==> FirstIndex(rows, id) >= 0
  {
    if rows != [] {
      BuildKeys(rows[..|rows| - 1]);
      forall id
        ensures id in Build(rows).values <==> FirstIndex(rows, id) >= 0
      {
        FirstIndexStep(rows, id);
      }
    }
  }

  /** Under each key is the last row with that id. */
  lemma {:induction false} BuildValues(rows: seq<Assistant>)
    ensures forall id :: id in Build(rows).values ==>
              LastIndex(rows, id) >= 0 && Build(rows).values[id] == rows[LastIndex(rows, id)]
  {
    if rows != [] {
      var init := rows[..|rows| - 1];
      BuildValues(init);
      forall id | id in Build(rows).values && id != rows[|rows| - 1].assistantId
        ensures LastIndex(rows, id) >= 0 && Build(rows).values[id] == rows[LastIndex(rows, id)]
      {
        assert LastIndex(rows, id) == LastIndex(init, id);
        assert rows[LastIndex(init, id)] == init[LastIndex(init, id)];
      }
    }
  }

  /** The keys are ordered by each id's first occurrence. */
  lemma {:induction false} BuildOrder(rows: seq<Assistant>)
    ensures forall i, j :: 0 <= i < j < |Build(rows).keys| ==>
              FirstIndex(rows, Build(rows).keys[i]) < FirstIndex(rows, Build(rows).keys[j])
  {
    if rows != [] {
      var init := rows[..|rows| - 1];
      var a := rows[|rows| - 1];
      BuildOrder(init);
      BuildKeys(init);
      var m0 := Build(init);
      var m := Build(rows);
      assert m == Set(m0, a);
      forall i, j | 0 <= i < j < |m.keys|
        ensures FirstIndex(rows, m.keys[i]) < FirstIndex(rows, m.keys[j])
      {
        FirstIndexStep(rows, m.keys[i]);
        FirstIndexStep(rows, m.keys[j]);
        assert m.keys[i] == m0.keys[i] && m.keys[i] in m0.values;
        if j == |m0.keys| {
          assert m.keys[j] == a.assistantId && a.assistantId !in m0.values;
        } else {
          assert m.keys[j] == m0.keys[j] && m.keys[j] in m0.values;
        }
      }
    }
  }

  /** Entry `i` of the list is the last row loaded with the map's `i`-th key. */
  lemma UniqueAssistantsKeys(rows: seq<Assistant>)
    ensures |UniqueAssistants(rows)| == |Build(rows).keys|
    ensures forall i :: 0 <= i < |UniqueAssistants(rows)| ==>
              && UniqueAssistants(rows)[i].assistantId == Build(rows).keys[i]
              && LastIndex(rows, Build(rows).keys[i]) >= 0
              && UniqueAssistants(rows)[i] == rows[LastIndex(rows, Build(rows).keys[i])]
  {
    BuildValues(rows);
    var m := Build(rows);
    var u := UniqueAssistants(rows);
    forall i | 0 <= i < |u|
      ensures u[i].assistantId == m.keys[i] && LastIndex(rows, m.keys[i]) >= 0 && u[i] == rows[LastIndex(rows, m.keys[i])]
    {
      assert u[i] == m.values[m.keys[i]];
    }
  }

  /** Every id that occurs in the rows is shown. */
  lemma UniqueAssistantsCover(rows: seq<Assistant>)
    ensures forall a :: a in rows ==> exists i :: 0 <= i < |UniqueAssistants(rows)| && UniqueAssistants(rows)[i].assistantId == a.assistantId
  {
    UniqueAssistantsKeys(rows);
    BuildKeys(rows);
    var m := Build(rows);
    var u := UniqueAssistants(rows);
    forall a | a in rows
      ensures exists i :: 0 <= i < |u| && u[i].assistantId == a.assistantId
    {
      assert FirstIndex(rows, a.assistantId) >= 0;
      var i :| 0 <= i < |m.keys| && m.keys[i] == a.assistantId;
      assert u[i].assistantId == a.assistantId;
    }
  }

  /** Every input row's id is shown exactly once, the shown rows follow the first
      occurrence of their ids, and each is the last row loaded with its id. */
  lemma UniqueAssistantsSpec(rows: seq<Assistant>)
    ensures forall i, j :: 0 <= i < j < |UniqueAssistants(rows)| ==>
              UniqueAssistants(rows)[i].assistantId != UniqueAssistants(rows)[j].assistantId
    ensures forall a :: a in rows ==> exists i :: 0 <= i < |UniqueAssistants(rows)| && UniqueAssistants(rows)[i].assistantId == a.assistantId
    ensures forall i :: 0 <= i < |UniqueAssistants(rows)| ==>
              var u := UniqueAssistants(rows)[i];
              LastIndex(rows, u.assistantId) >= 0 && u == rows[LastIndex(rows, u.assistantId)]
    ensures forall i, j :: 0 <= i < j < |UniqueAssistants(rows)| ==>
              FirstIndex(rows, UniqueAssistants(rows)[i].assistantId) < FirstIndex(rows, UniqueAssistants(rows)[j].assistantId)
  {
    UniqueAssistantsKeys(rows);
    UniqueAssistantsCover(rows);
    BuildOrder(rows);
  }

  /** The list never grows, and keeps its length exactly when no id repeats. */
  lemma {:induction false} UniqueAssistantsLength(rows: seq<Assistant>)
    ensures |UniqueAssistants(rows)| <= |rows|
    ensures |UniqueAssistants(rows)| == |rows| <==> IdsDistinct(rows)
  {
    if rows != [] {
      var init := rows[..|rows| - 1];
      var a := rows[|rows| - 1];
      UniqueAssistantsLength(init);
      BuildKeys(init);
      var m0 := Build(init);
      assert Build(rows) == Set(m0, a);
      if FirstIndex(init, a.assistantId) >= 0 {
        var k := FirstIndex(init, a.assistantId);
        assert rows[k] == init[k];
        assert rows[k].assistantId == rows[|rows| - 1].assistantId;
      }
      assert IdsDistinct(rows) <==> IdsDistinct(init) && FirstIndex(init, a.assistantId) == -1 by {
        if IdsDistinct(init) && FirstIndex(init, a.assistantId) == -1 {
          forall i, j | 0 <= i < j < |rows|
            ensures rows[i].assistantId != rows[j].assistantId
          {
            assert rows[i] == init[i];
            if j < |init| {
              assert rows[j] == init[j];
            }
          }
        }
        if IdsDistinct(rows) {
          forall i, j | 0 <= i < j < |init|
            ensures init[i].assistantId != init[j].assistantId
          {
            assert init[i] == rows[i] && init[j] == rows[j];
          }
        }
      }
    }
  }
}
