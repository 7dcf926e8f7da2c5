/** The row-building step both contact-list parsers share: a fresh record filled
    by `headers.forEach((header, index) => { row[header] = values[index] || '' })`. */
module CsvRows {

  type Row = map<string, string>

  /** `values[index] || ''`: the cell at `index`, or the empty string past the end. */
  function Cell(values: seq<string>, index: nat): (c: string)
    ensures index < |values| ==> c == values[index]
    ensures index >= |values| ==> c == ""
  {
    if index < |values| then values[index] else ""
  }

  /** Position `i` holds the last occurrence of its header. */
  predicate IsLastOccurrence(headers: seq<string>, i: nat)
    requires i < |headers|
  {
    forall j :: i < j < |headers| ==> headers[j] != headers[i]
  }

  /** Position of the last occurrence of `h`. */
  function LastIndex(headers: seq<string>, h: string): (j: nat)
    requires h in headers
    ensures j < |headers| && headers[j] == h && IsLastOccurrence(headers, j)
  {
    if headers[|headers| - 1] == h then |headers| - 1
    else LastIndex(headers[..|headers| - 1], h)
  }

  /** The record after the `forEach` has written the first `|headers|` assignments. */
  function RowOf(headers: seq<string>, values: seq<string>): Row
    decreases |headers|
  {
    if headers == [] then map[]
    else RowOf(headers[..|headers| - 1], values)[headers[|headers| - 1] := Cell(values, |headers| - 1)]
  }

  /** The row has a key for exactly the headers. */
  lemma {:induction false} RowOfKeys(headers: seq<string>, values: seq<string>)
    ensures forall h :: h in RowOf(headers, values) <==> h in headers
  {
    if headers != [] {
      var n := |headers| - 1;
      RowOfKeys(headers[..n], values);
      assert headers == headers[..n] + [headers[n]];
    }
  }

  /** A header maps to the cell under its last occurrence. */
  lemma {:induction false} RowOfValues(headers: seq<string>, values: seq<string>)
    ensures forall i :: 0 <= i < |headers| && IsLastOccurrence(headers, i) ==>
              headers[i] in RowOf(headers, values) && RowOf(headers, values)[headers[i]] == Cell(values, i)
  {
    if headers != [] {
      var n := |headers| - 1;
      var init := headers[..n];
      RowOfValues(init, values);
      forall i | 0 <= i < |headers| && IsLastOccurrence(headers, i)
        ensures headers[i] in RowOf(headers, values) && RowOf(headers, values)[headers[i]] == Cell(values, i)
      {
        if i < n {
          assert headers[n] != headers[i];
          assert init[i] == headers[i];
          assert IsLastOccurrence(init, i);
        }
      }
    }
  }

  /** The row has exactly the headers as keys; a header maps to the cell under its
      last occurrence, so for a repeated header the later column wins; cells past
      the last header are ignored and missing cells read as ''. */
  lemma RowOfSpec(headers: seq<string>, values: seq<string>)
    ensures forall h :: h in RowOf(headers, values) <==> h in headers
    ensures forall i :: 0 <= i < |headers| && IsLastOccurrence(headers, i) ==>
              RowOf(headers, values)[headers[i]] == Cell(values, i)
  {
    RowOfKeys(headers, values);
    RowOfValues(headers, values);
  }

  /** The `forEach` that fills the row, one header at a time. */
  method BuildRow(headers: seq<string>, values: seq<string>) returns (row: Row)
    ensures row == RowOf(headers, values)
    ensures forall h :: h in row <==> h in headers
    ensures forall i :: 0 <= i < |headers| && IsLastOccurrence(headers, i) ==> row[headers[i]] == Cell(values, i)
  {
    row := map[];
    for i := 0 to |headers|
      invariant row == RowOf(headers[..i], values)
    {
      assert headers[..i + 1][..i] == headers[..i];
      row := row[headers[i] := Cell(values, i)];
    }
    assert headers[..|headers|] == headers;
    RowOfSpec(headers, values);
  }
}
