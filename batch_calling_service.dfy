/** The client-side campaign service: `parseCSV`, the permissive contact-list
    parser, and `createCampaign`, which records a campaign and one pending job per
    contact row. Neither parser interprets the quoting of section 2 of RFC 4180:
    this one strips every `"`, whatever its position. */
module BatchCallingService {
  import opened Wrappers
  import opened Json
  import opened JsString
  import opened CsvRows

  datatype CsvError = TooFewLines | MissingPhoneColumn

  /** The header names accepted as a phone column, in the order `createCampaign`
      tries them. */
  const PhoneAliases: seq<string> := ["phone_number", "phone number", "Phone", "PHONE", "phoneNumber"]

  /** `cell.trim().replace(/"/g, '')`: trimmed first, so whitespace inside the quotes stays. */
  function CleanCell(c: string): (r: string)
    ensures '"' !in r
  {
    RemoveAll(Trim(c), '"')
  }

  function CleanCells(cells: seq<string>): (r: seq<string>)
    ensures |r| == |cells|
    ensures forall i :: 0 <= i < |cells| ==> r[i] == CleanCell(cells[i])
  {
    seq(|cells|, i requires 0 <= i < |cells| => CleanCell(cells[i]))
  }

  /** `headers.some(h => phoneColumns.some(p => h.toLowerCase().includes(p.toLowerCase())))`. */
  predicate HasPhoneColumn(headers: seq<string>)
  {
    exists h, a :: h in headers && a in PhoneAliases && Contains(Lower(h), Lower(a))
  }

  /** The lines `parseCSV` works on: the whole text trimmed, then split on LF. */
  function Lines(text: string): seq<string>
  {
    Split(Trim(text), '\n')
  }

  /** `parseCSV(csvText)`: a thrown error becomes `Err`. */
  function ParseCsv(text: string): Result<seq<Row>, CsvError>
  {
    var lines := Lines(text);
    if |lines| < 2 then Err(TooFewLines)
    else
      var headers := CleanCells(Split(lines[0], ','));
      if !HasPhoneColumn(headers) then Err(MissingPhoneColumn)
      else Ok(DataRows(headers, lines[1..]))
  }

  /** `lines.map(line => ...)`: one row per line, cells split on `,` and cleaned. */
  function DataRows(headers: seq<string>, lines: seq<string>): (rows: seq<Row>)
    ensures |rows| == |lines|
    ensures forall i :: 0 <= i < |lines| ==> rows[i] == RowOf(headers, CleanCells(Split(lines[i], ',')))
  {
    seq(|lines|, i requires 0 <= i < |lines| => RowOf(headers, CleanCells(Split(lines[i], ','))))
  }

  lemma AliasesMentionPhone()
    ensures forall a :: a in PhoneAliases ==> Contains(Lower(a), "phone")
  {
    assert Lower("phone_number")[0..5] == "phone";
    assert OccursAt(Lower("phone_number"), "phone", 0);
    assert Lower("phone number")[0..5] == "phone";
    assert OccursAt(Lower("phone number"), "phone", 0);
    assert Lower("Phone") == "phone";
    assert OccursAt(Lower("Phone"), "phone", 0);
    assert Lower("PHONE") == "phone";
    assert OccursAt(Lower("PHONE"), "phone", 0);
    assert Lower("phoneNumber")[0..5] == "phone";
    assert OccursAt(Lower("phoneNumber"), "phone", 0);
  }

  /** Since every alias contains `phone` and `Phone` lower-cases to `phone`, the alias
      check is the same as "some header contains `phone`, ignoring case". */
  lemma HasPhoneColumnIffMentionsPhone(headers: seq<string>)
    ensures HasPhoneColumn(headers) <==> exists h :: h in headers && Contains(Lower(h), "phone")
  {
    AliasesMentionPhone();
    if HasPhoneColumn(headers) {
      var h, a :| h in headers && a in PhoneAliases && Contains(Lower(h), Lower(a));
      ContainsTransitive(Lower(h), Lower(a), "phone");
    }
    if h :| h in headers && Contains(Lower(h), "phone") {
      assert Lower("Phone") == "phone";
      assert "Phone" in PhoneAliases;
    }
  }

  /** When `parseCSV` throws: "at least header and one data row" exactly when the
      trimmed text holds no line break, and the missing-column error exactly when no
      cleaned header mentions `phone`; otherwise it returns one row per line after
      the header, blank interior lines included. */
  lemma ParseCsvOutcome(text: string)
    ensures ParseCsv(text) == Err(TooFewLines) <==> Count(Trim(text), '\n') == 0
    ensures Count(Trim(text), '\n') > 0 ==>
              (ParseCsv(text) == Err(MissingPhoneColumn) <==>
                 !exists h :: h in CleanCells(Split(Lines(text)[0], ',')) && Contains(Lower(h), "phone"))
    ensures ParseCsv(text).Ok? ==> |ParseCsv(text).value| == Count(Trim(text), '\n')
  {
    SplitJoin(Trim(text), '\n');
    if |Lines(text)| >= 2 {
      HasPhoneColumnIffMentionsPhone(CleanCells(Split(Lines(text)[0], ',')));
    }
  }

  /** Every row `parseCSV` returns is keyed by exactly the cleaned headers, and no
      key or value keeps a `"`. */
  lemma ParseCsvRows(text: string)
    requires ParseCsv(text).Ok?
    ensures forall r :: r in ParseCsv(text).value ==>
              (forall h :: h in r <==> h in CleanCells(Split(Lines(text)[0], ',')))
    ensures forall r, k :: r in ParseCsv(text).value && k in r ==> '"' !in k && '"' !in r[k]
  {
    var lines := Lines(text);
    var headers := CleanCells(Split(lines[0], ','));
    var rows := DataRows(headers, lines[1..]);
    assert |lines| >= 2 && HasPhoneColumn(headers);
    assert ParseCsv(text).value == rows;
    forall r | r in rows
      ensures forall h :: h in r <==> h in headers
      ensures forall k :: k in r ==> '"' !in k && '"' !in r[k]
    {
      var i :| 0 <= i < |rows| && rows[i] == r;
      CleanRow(headers, CleanCells(Split(lines[1..][i], ',')));
    }
  }

  /** A row built from quote-free headers and cells is quote-free. */
  lemma CleanRow(headers: seq<string>, values: seq<string>)
    requires forall i :: 0 <= i < |headers| ==> '"' !in headers[i]
    requires forall i :: 0 <= i < |values| ==> '"' !in values[i]
    ensures forall h :: h in RowOf(headers, values) <==> h in headers
    ensures forall k :: k in RowOf(headers, values) ==> '"' !in k && '"' !in RowOf(headers, values)[k]
  {
    var r := RowOf(headers, values);
    RowOfSpec(headers, values);
    forall k | k in r
      ensures '"' !in k && '"' !in r[k]
    {
      var j := LastIndex(headers, k);
      assert r[headers[j]] == Cell(values, j);
    }
  }

  /** `row.phone_number || row['phone number'] || row.Phone || row.PHONE || row.phoneNumber`. */
  function PhoneOf(row: Row): Json
  {
    Chain(seq(|PhoneAliases|, k requires 0 <= k < |PhoneAliases| => Field(row, PhoneAliases[k])))
  }

  /** The job's phone is the value under the first alias present with a non-empty
      value; when there is none it is whatever the last alias gives: `''` if the row
      has a `phoneNumber` key, `undefined` otherwise. */
  lemma PhoneOfSpec(row: Row)
    ensures forall k :: (0 <= k < |PhoneAliases| && PhoneAliases[k] in row && row[PhoneAliases[k]] != "" &&
              (forall j :: 0 <= j < k ==> PhoneAliases[j] !in row || row[PhoneAliases[j]] == "")) ==>
              PhoneOf(row) == Str(row[PhoneAliases[k]])
    ensures (forall a :: a in PhoneAliases ==> a !in row || row[a] == "") ==>
              PhoneOf(row) == Field(row, "phoneNumber")
  {
    var c := seq(|PhoneAliases|, k requires 0 <= k < |PhoneAliases| => Field(row, PhoneAliases[k]));
    ChainIsFirstTruthy(c);
    var f := FirstTruthyIndex(c);
    forall k | 0 <= k < |PhoneAliases| && PhoneAliases[k] in row && row[PhoneAliases[k]] != "" &&
               (forall j :: 0 <= j < k ==> PhoneAliases[j] !in row || row[PhoneAliases[j]] == "")
      ensures PhoneOf(row) == Str(row[PhoneAliases[k]])
    {
      assert Truthy(c[k]);
    }
  }

  /** The permissive check lets through a header that none of the aliases names, and
      the job's phone is then `undefined`: `mobile_phone` passes `parseCSV`, yet no
      job built from its rows carries a phone number. */
  lemma AcceptedHeaderYieldsNoPhone()
    ensures HasPhoneColumn(["mobile_phone"])
    ensures PhoneOf(map["mobile_phone" := "5550100"]) == Undefined
  {
    assert Lower("mobile_phone")[7..12] == "phone";
    assert OccursAt(Lower("mobile_phone"), "phone", 7);
    assert Lower("Phone") == "phone";
    assert Contains(Lower("mobile_phone"), Lower("Phone"));
    var row := map["mobile_phone" := "5550100"];
    PhoneOfSpec(row);
  }

  /** The form data `createCampaign` receives. */
  datatype BatchCallData = BatchCallData(
    campaignName: string, assistantId: string, phoneNumberId: string,
    csvData: seq<Row>, csvFileName: string)

  datatype CampaignInsert = CampaignInsert(
    name: string, clientId: Option<string>, assistantId: string, phoneNumberId: string,
    csvFileName: string, totalNumbers: nat, status: string)

  datatype JobInsert = JobInsert(campaignId: string, phone: Json, variables: Row, status: string)

  datatype CreateError = CampaignInsertFailed | JobsInsertFailed

  /** The writes `createCampaign` makes. The user's client id (null when its lookup
      fails), the id the database gives the new campaign (`None` when the insert
      fails) and whether the job insert fails are the database's answers. */
  datatype CreateOutcome = CreateOutcome(campaign: CampaignInsert, jobs: seq<JobInsert>, result: Result<string, CreateError>)

  function CreateCampaign(data: BatchCallData, clientId: Option<string>, newCampaignId: Option<string>, jobsInsertFails: bool): CreateOutcome
  {
    var campaign := CampaignInsert(data.campaignName, clientId, data.assistantId, data.phoneNumberId,
                                   data.csvFileName, |data.csvData|, "pending");
    match newCampaignId
    case None => CreateOutcome(campaign, [], Err(CampaignInsertFailed))
    case Some(id) =>
      var jobs := seq(|data.csvData|, i requires 0 <= i < |data.csvData| =>
                    JobInsert(id, PhoneOf(data.csvData[i]), data.csvData[i], "pending"));
      CreateOutcome(campaign, jobs, if jobsInsertFails then Err(JobsInsertFailed) else Ok(id))
  }

  /** The campaign is recorded as `pending` with `total_numbers` equal to the number
      of contact rows. When its insert fails nothing else is written and the
      campaign error is reported; when it succeeds, one pending job per row follows, in
      row order, each keeping the WHOLE row (phone column included) as its variables
      and the first non-empty phone alias as its number, and a failed job insert
      is reported as such. */
  lemma CreateCampaignSpec(data: BatchCallData, clientId: Option<string>, newCampaignId: Option<string>, jobsInsertFails: bool)
    ensures var out := CreateCampaign(data, clientId, newCampaignId, jobsInsertFails);
      && out.campaign.status == "pending"
      && out.campaign.totalNumbers == |data.csvData|
      && (out.result.Ok? <==> newCampaignId.Some? && !jobsInsertFails)
      && (out.result.Ok? ==> out.result.value == newCampaignId.value)
      && (newCampaignId.None? ==> out.jobs == [] && out.result == Err(CampaignInsertFailed))
      && (newCampaignId.Some? && jobsInsertFails ==> out.result == Err(JobsInsertFailed))
      && (newCampaignId.Some? ==>
            && |out.jobs| == out.campaign.totalNumbers
            && forall i :: 0 <= i < |out.jobs| ==>
                 && out.jobs[i].campaignId == newCampaignId.value
                 && out.jobs[i].status == "pending"
                 && out.jobs[i].variables == data.csvData[i]
                 && out.jobs[i].phone == PhoneOf(data.csvData[i])
                 && ("phone_number" in data.csvData[i] && data.csvData[i]["phone_number"] != "" ==> out.jobs[i].phone == Str(data.csvData[i]["phone_number"])))
  {
    var out := CreateCampaign(data, clientId, newCampaignId, jobsInsertFails);
    if newCampaignId.Some? {
      forall i | 0 <= i < |out.jobs| && "phone_number" in data.csvData[i] && data.csvData[i]["phone_number"] != ""
        ensures out.jobs[i].phone == Str(data.csvData[i]["phone_number"])
      {
        PhoneOfSpec(data.csvData[i]);
      }
    }
  }
}
