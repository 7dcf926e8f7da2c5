/** The campaign screen's own contact-list handling: the strict inline parser run
    when a file is chosen, and the guards checked before a campaign is submitted.
    Cells are only trimmed: quote characters are kept verbatim. */
module BatchCallingUpload {
  import opened Wrappers
  import opened JsString
  import opened CsvRows

  /** The chosen file: its MIME type as the browser reports it, its name and its text. */
  datatype Upload = Upload(fileType: string, name: string, content: string)

  datatype UploadError = NotACsvFile | MissingPhoneNumberColumn

  function TrimCells(cells: seq<string>): (r: seq<string>)
    ensures |r| == |cells|
    ensures forall i :: 0 <= i < |cells| ==> r[i] == Trim(cells[i])
  {
    seq(|cells|, i requires 0 <= i < |cells| => Trim(cells[i]))
  }

  predicate IsBlank(line: string)
  {
    Trim(line) == ""
  }

  /** `line.trim()` is truthy: the line holds more than whitespace. */
  predicate HasText(line: string)
  {
    !IsBlank(line)
  }

  /** `xs.filter(keep)`. */
  function Kept<T(==)>(xs: seq<T>, keep: T -> bool): (r: seq<T>)
    ensures |r| <= |xs|
    ensures forall x :: x in r ==> x in xs && keep(x)
  {
    if xs == [] then []
    else
      assert forall x :: x in xs[1..] ==> x in xs;
      (if keep(xs[0]) then [xs[0]] else []) + Kept(xs[1..], keep)
  }

  /** Number of elements `keep` accepts. */
  function CountKept<T>(xs: seq<T>, keep: T -> bool): nat
  {
    if xs == [] then 0 else (if keep(xs[0]) then 1 else 0) + CountKept(xs[1..], keep)
  }

  lemma {:induction false} KeptCount<T>(xs: seq<T>, keep: T -> bool)
    ensures |Kept(xs, keep)| == CountKept(xs, keep)
  {
    if xs != [] {
      KeptCount(xs[1..], keep);
    }
  }

  /** The filter keeps every accepted element, in order: element `i` lands at the
      number of accepted elements before it. */
  lemma {:induction false} KeptPositions<T>(xs: seq<T>, keep: T -> bool)
    ensures forall i :: 0 <= i < |xs| && keep(xs[i]) ==>
              CountKept(xs[..i], keep) < |Kept(xs, keep)| && Kept(xs, keep)[CountKept(xs[..i], keep)] == xs[i]
  {
    if xs != [] {
      var tail := xs[1..];
      KeptPositions(tail, keep);
      var head := if keep(xs[0]) then [xs[0]] else [];
      assert Kept(xs, keep) == head + Kept(tail, keep);
      forall i | 0 <= i < |xs| && keep(xs[i])
        ensures CountKept(xs[..i], keep) < |Kept(xs, keep)| && Kept(xs, keep)[CountKept(xs[..i], keep)] == xs[i]
      {
        if i == 0 {
          assert xs[..0] == [];
        } else {
          assert xs[..i][1..] == tail[..i - 1];
          assert tail[i - 1] == xs[i];
        }
      }
    }
  }

  /** `lines.filter(line => line.trim())`. */
  function NonBlank(lines: seq<string>): (r: seq<string>)
    ensures |r| <= |lines|
    ensures forall l :: l in r ==> l in lines && !IsBlank(l)
  {
    Kept(lines, HasText)
  }

  /** Number of lines that are not whitespace-only. */
  function CountNonBlank(lines: seq<string>): nat
  {
    CountKept(lines, HasText)
  }

  function UploadRows(headers: seq<string>, lines: seq<string>): (rows: seq<Row>)
    ensures |rows| == |lines|
    ensures forall i :: 0 <= i < |lines| ==> rows[i] == RowOf(headers, TrimCells(Split(lines[i], ',')))
  {
    seq(|lines|, i requires 0 <= i < |lines| => RowOf(headers, TrimCells(Split(lines[i], ','))))
  }

  function Headers(content: string): seq<string>
  {
    TrimCells(Split(Split(content, '\n')[0], ','))
  }

  /** `handleFileUpload` with its `onload` callback: an error toast becomes `Err`. */
  function ParseUpload(file: Option<Upload>): Result<seq<Row>, UploadError>
  {
    if file.None? || file.value.fileType != "text/csv" then Err(NotACsvFile)
    else
      var lines := Split(file.value.content, '\n');
      var headers := TrimCells(Split(lines[0], ','));
      if "phone_number" !in headers then Err(MissingPhoneNumberColumn)
      else Ok(UploadRows(headers, NonBlank(lines[1..])))
  }

  predicate IsTrimmed(s: string)
  {
    s == [] || (!IsJsSpace(s[0]) && !IsJsSpace(s[|s| - 1]))
  }

  lemma NonBlankCount(lines: seq<string>)
    ensures |NonBlank(lines)| == CountNonBlank(lines)
  {
    KeptCount(lines, HasText);
  }

  /** Every non-blank line survives the filter, in order: line `i` lands at the
      number of non-blank lines before it. */
  lemma NonBlankPositions(lines: seq<string>)
    ensures forall i :: 0 <= i < |lines| && !IsBlank(lines[i]) ==>
              CountNonBlank(lines[..i]) < |NonBlank(lines)| && NonBlank(lines)[CountNonBlank(lines[..i])] == lines[i]
  {
    KeptPositions(lines, HasText);
  }

  /** Each non-blank line after the header gives the row built from its trimmed
      cells, at the place the filter puts it. */
  lemma ParseUploadLines(file: Upload)
    requires ParseUpload(Some(file)).Ok?
    ensures var data := Split(file.content, '\n')[1..];
      forall j :: 0 <= j < |data| && !IsBlank(data[j]) ==>
        && CountNonBlank(data[..j]) < |ParseUpload(Some(file)).value|
        && ParseUpload(Some(file)).value[CountNonBlank(data[..j])] == RowOf(Headers(file.content), TrimCells(Split(data[j], ',')))
  {
    var data := Split(file.content, '\n')[1..];
    NonBlankPositions(data);
    assert ParseUpload(Some(file)).value == UploadRows(Headers(file.content), NonBlank(data));
  }

  /** What the upload handler promises: anything but a `text/csv` file is refused;
      a CSV file is refused unless some trimmed header is exactly `phone_number`
      (case matters); otherwise there is one row per non-blank line after the
      header, in order and built from that line's trimmed cells, every row has the
      `phone_number` key, and every value is trimmed. */
  lemma ParseUploadSpec(file: Option<Upload>)
    ensures ParseUpload(file) == Err(NotACsvFile) <==> file.None? || file.value.fileType != "text/csv"
    ensures ParseUpload(file) == Err(MissingPhoneNumberColumn) <==>
              file.Some? && file.value.fileType == "text/csv" && "phone_number" !in Headers(file.value.content)
    ensures ParseUpload(file).Ok? ==>
              var rows := ParseUpload(file).value;
              && |rows| == CountNonBlank(Split(file.value.content, '\n')[1..])
              && (forall r :: r in rows ==> "phone_number" in r && (forall h :: h in r <==> h in Headers(file.value.content)))
              && (forall r, k :: r in rows && k in r ==> IsTrimmed(r[k]))
    ensures ParseUpload(file).Ok? ==>
              var data := Split(file.value.content, '\n')[1..];
              forall j :: 0 <= j < |data| && !IsBlank(data[j]) ==>
                && CountNonBlank(data[..j]) < |ParseUpload(file).value|
                && ParseUpload(file).value[CountNonBlank(data[..j])] == RowOf(Headers(file.value.content), TrimCells(Split(data[j], ',')))
  {
    if ParseUpload(file).Ok? {
      ParseUploadCount(file.value);
      ParseUploadRows(file.value);
      ParseUploadLines(file.value);
    }
  }

  /** An accepted file gives one row per non-blank line after the header. */
  lemma ParseUploadCount(file: Upload)
    requires ParseUpload(Some(file)).Ok?
    ensures |ParseUpload(Some(file)).value| == CountNonBlank(Split(file.content, '\n')[1..])
  {
    NonBlankCount(Split(file.content, '\n')[1..]);
  }

  /** Every row of an accepted file is keyed by exactly the trimmed headers,
      `phone_number` among them, and holds only trimmed values. */
  lemma ParseUploadRows(file: Upload)
    requires ParseUpload(Some(file)).Ok?
    ensures forall r :: r in ParseUpload(Some(file)).value ==>
              "phone_number" in r && (forall h :: h in r <==> h in Headers(file.content))
    ensures forall r, k :: r in ParseUpload(Some(file)).value && k in r ==> IsTrimmed(r[k])
  {
    var lines := Split(file.content, '\n');
    var headers := Headers(file.content);
    var kept := NonBlank(lines[1..]);
    var rows := ParseUpload(Some(file)).value;
    assert "phone_number" in headers;
    assert rows == UploadRows(headers, kept);
    forall r | r in rows
      ensures "phone_number" in r && (forall h :: h in r <==> h in headers)
      ensures forall k :: k in r ==> IsTrimmed(r[k])
    {
      var i :| 0 <= i < |rows| && rows[i] == r;
      var cells := TrimCells(Split(kept[i], ','));
      TrimCellsTrimmed(Split(kept[i], ','));
      TrimmedRow(headers, cells);
    }
  }

  /** Every trimmed cell is trimmed. */
  lemma TrimCellsTrimmed(cells: seq<string>)
    ensures forall i :: 0 <= i < |cells| ==> IsTrimmed(TrimCells(cells)[i])
  {
    forall i | 0 <= i < |cells|
      ensures IsTrimmed(TrimCells(cells)[i])
    {
      TrimShape(cells[i]);
    }
  }

  /** A row built from trimmed cells holds only trimmed values. */
  lemma TrimmedRow(headers: seq<string>, values: seq<string>)
    requires forall i :: 0 <= i < |values| ==> IsTrimmed(values[i])
    ensures forall h :: h in RowOf(headers, values) <==> h in headers
    ensures forall k :: k in RowOf(headers, values) ==> IsTrimmed(RowOf(headers, values)[k])
  {
    var r := RowOf(headers, values);
    RowOfSpec(headers, values);
    forall k | k in r
      ensures IsTrimmed(r[k])
    {
      var j := LastIndex(headers, k);
      assert r[headers[j]] == Cell(values, j);
    }
  }

  datatype CampaignForm = CampaignForm(name: string, assistantId: string, phoneNumberId: string)

  /** The campaign record `handleSubmit` asks to create. */
  datatype CampaignRequest = CampaignRequest(
    name: string, clientId: string, assistantId: string, phoneNumberId: string,
    csvFileName: string, totalNumbers: nat)

  datatype SubmitError = NoCsvUploaded | MissingClientId

  /** `handleSubmit`: refused without a file or rows, then without a client id. */
  function Submit(form: CampaignForm, csvFile: Option<Upload>, csvData: seq<Row>, clientId: Option<string>): Result<CampaignRequest, SubmitError>
  {
    if csvFile.None? || |csvData| == 0 then Err(NoCsvUploaded)
    else if clientId.None? || clientId.value == "" then Err(MissingClientId)
    else Ok(CampaignRequest(form.name, clientId.value, form.assistantId, form.phoneNumberId,
                            csvFile.value.name, |csvData|))
  }

  /** A submitted campaign always comes from a file with at least one row and a
      non-empty client id, and its `total_numbers` is the number of rows loaded;
      when those rows are the upload's parse, that is the number of non-blank data
      lines of the file. */
  lemma SubmitSpec(form: CampaignForm, file: Upload, clientId: Option<string>)
    requires ParseUpload(Some(file)).Ok?
    ensures var rows := ParseUpload(Some(file)).value;
      && (Submit(form, Some(file), rows, clientId).Ok? <==>
            CountNonBlank(Split(file.content, '\n')[1..]) > 0 && clientId.Some? && clientId.value != "")
      && (Submit(form, Some(file), rows, clientId).Ok? ==>
            Submit(form, Some(file), rows, clientId).value.totalNumbers == CountNonBlank(Split(file.content, '\n')[1..]))
  {
    ParseUploadCount(file);
  }
}
