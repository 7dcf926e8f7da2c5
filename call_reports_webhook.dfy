/** The `call-reports` server function: the calling provider posts an
    end-of-call report, the function normalises it into one `call_reports` row,
    finds the client the call belongs to, and stores the row. */
module CallReportsWebhook {
  import opened Wrappers
  import opened Json

  // ---------------------------------------------------------------------------
  // The gate

  datatype Rejection = InvalidRequestFormat | InvalidWebhookType

  /** `webhookData.message`, where `body` is `None` when the request body is not
      JSON. Reading a property of `null` throws, which the function reports like
      an unparsable body. */
  function MessageOf(body: Option<Json>): (r: Result<Json, Rejection>)
    ensures r.Err? <==> body.None? || body.value == Null || body.value == Undefined
    ensures r.Ok? ==> r.value == Prop(body.value, "message")
  {
    if body.None? || body.value == Null || body.value == Undefined then Err(InvalidRequestFormat)
    else Ok(Prop(body.value, "message"))
  }

  /** `!message || message.type !== 'end-of-call-report'` fails. */
  predicate IsEndOfCallReport(message: Json)
  {
    Truthy(message) && Prop(message, "type") == Str("end-of-call-report")
  }

  // ---------------------------------------------------------------------------
  // Field extraction

  datatype CallType = Inbound | Outbound

  datatype Sentiment = Positive | Neutral | Negative

  /** A `call_reports` row as the function inserts it. */
  datatype CallRecord = CallRecord(
    callId: Json, agent: Json, fromNumber: Json, toNumber: Json,
    callType: CallType, status: Json, sentiment: Sentiment,
    durationMinutes: Json, cost: Json,
    summary: Json, transcript: Json, recordingUrl: Json, structuredData: Json,
    startedAt: Json, endedAt: Json, clientId: Json)

  function CallId(m: Json): Json
  {
    Or(Path(m, ["call", "id"]), Path(m, ["call", "id"]))
  }

  function Agent(m: Json): Json
  {
    Chain([Path(m, ["assistant", "name"]), Path(m, ["call", "assistant", "name"]), Str("Unknown Agent")])
  }

  function FromNumber(m: Json): Json
  {
    Chain([Path(m, ["phoneNumber", "number"]), Path(m, ["call", "phoneNumber", "number"]), Str("")])
  }

  function ToNumber(m: Json): Json
  {
    Chain([Path(m, ["customer", "number"]), Path(m, ["call", "customer", "number"]), Str("")])
  }

  function Status(m: Json): Json
  {
    Chain([Prop(m, "endedReason"), Path(m, ["call", "endedReason"]), Str("unknown")])
  }

  function Duration(m: Json): Json
  {
    Chain([Prop(m, "durationMinutes"), Path(m, ["call", "durationMinutes"]), Num(0.0)])
  }

  function Summary(m: Json): Json
  {
    Chain([Prop(m, "summary"), Path(m, ["analysis", "summary"]), Path(m, ["call", "analysis", "summary"]), Str("")])
  }

  function Transcript(m: Json): Json
  {
    Chain([Prop(m, "transcript"), Path(m, ["call", "transcript"]), Str("")])
  }

  function RecordingUrl(m: Json): Json
  {
    Chain([Prop(m, "recordingUrl"), Prop(m, "stereoRecordingUrl"),
           Path(m, ["call", "recordingUrl"]), Path(m, ["call", "stereoRecordingUrl"]), Str("")])
  }

  function StructuredData(m: Json): Json
  {
    Chain([Path(m, ["analysis", "structuredData"]), Path(m, ["call", "analysis", "structuredData"]), Obj(map[])])
  }

  function StartedAt(m: Json): Json
  {
    Or(Prop(m, "startedAt"), Path(m, ["call", "startedAt"]))
  }

  function EndedAt(m: Json): Json
  {
    Or(Prop(m, "endedAt"), Path(m, ["call", "endedAt"]))
  }

  /** Every extracted field is its first truthy source or, when no source is
      truthy, its default; so agent, status and structured data are never falsy,
      and the duration is truthy or `0`. The call id chain repeats one path, so it
      is simply that path's value. */
  lemma ExtractedFields(m: Json)
    ensures CallId(m) == Path(m, ["call", "id"])
    ensures Truthy(Agent(m)) && Truthy(Status(m)) && Truthy(StructuredData(m))
    ensures !Truthy(Path(m, ["assistant", "name"])) && !Truthy(Path(m, ["call", "assistant", "name"])) ==>
              Agent(m) == Str("Unknown Agent")
    ensures Truthy(Path(m, ["assistant", "name"])) ==> Agent(m) == Path(m, ["assistant", "name"])
    ensures !Truthy(Path(m, ["assistant", "name"])) && Truthy(Path(m, ["call", "assistant", "name"])) ==>
              Agent(m) == Path(m, ["call", "assistant", "name"])
    ensures Truthy(Duration(m)) || Duration(m) == Num(0.0)
    ensures !Truthy(Prop(m, "durationMinutes")) && !Truthy(Path(m, ["call", "durationMinutes"])) ==>
              Duration(m) == Num(0.0)
    ensures Truthy(FromNumber(m)) || FromNumber(m) == Str("")
    ensures Truthy(ToNumber(m)) || ToNumber(m) == Str("")
    ensures Truthy(Summary(m)) || Summary(m) == Str("")
    ensures Truthy(Transcript(m)) || Transcript(m) == Str("")
    ensures Truthy(RecordingUrl(m)) || RecordingUrl(m) == Str("")
    ensures !Truthy(Path(m, ["analysis", "structuredData"])) && !Truthy(Path(m, ["call", "analysis", "structuredData"])) ==>
              StructuredData(m) == Obj(map[])
    ensures !Truthy(Prop(m, "endedReason")) && !Truthy(Path(m, ["call", "endedReason"])) ==>
              Status(m) == Str("unknown")
    ensures Truthy(Prop(m, "endedReason")) ==> Status(m) == Prop(m, "endedReason")
    ensures !Truthy(Prop(m, "endedReason")) && Truthy(Path(m, ["call", "endedReason"])) ==>
              Status(m) == Path(m, ["call", "endedReason"])
    ensures var c := [Path(m, ["assistant", "name"]), Path(m, ["call", "assistant", "name"]), Str("Unknown Agent")];
              Agent(m) == c[FirstTruthyIndex(c)]
    ensures var c := [Path(m, ["phoneNumber", "number"]), Path(m, ["call", "phoneNumber", "number"]), Str("")];
              FromNumber(m) == c[FirstTruthyIndex(c)]
    ensures var c := [Path(m, ["customer", "number"]), Path(m, ["call", "customer", "number"]), Str("")];
              ToNumber(m) == c[FirstTruthyIndex(c)]
    ensures var c := [Prop(m, "endedReason"), Path(m, ["call", "endedReason"]), Str("unknown")];
              Status(m) == c[FirstTruthyIndex(c)]
    ensures var c := [Prop(m, "durationMinutes"), Path(m, ["call", "durationMinutes"]), Num(0.0)];
              Duration(m) == c[FirstTruthyIndex(c)]
    ensures var c := [Prop(m, "summary"), Path(m, ["analysis", "summary"]), Path(m, ["call", "analysis", "summary"]), Str("")];
              Summary(m) == c[FirstTruthyIndex(c)]
    ensures var c := [Prop(m, "transcript"), Path(m, ["call", "transcript"]), Str("")];
              Transcript(m) == c[FirstTruthyIndex(c)]
    ensures var c := [Prop(m, "recordingUrl"), Prop(m, "stereoRecordingUrl"),
                      Path(m, ["call", "recordingUrl"]), Path(m, ["call", "stereoRecordingUrl"]), Str("")];
              RecordingUrl(m) == c[FirstTruthyIndex(c)]
    ensures var c := [Path(m, ["analysis", "structuredData"]), Path(m, ["call", "analysis", "structuredData"]), Obj(map[])];
              StructuredData(m) == c[FirstTruthyIndex(c)]
  {
    AgentStatusData(m);
    DurationField(m);
    TextFields(m);
  }

  /** The agent, status and structured-data chains: each is its first truthy
      source, else its default (`'Unknown Agent'`, `'unknown'`, `{}`). */
  lemma AgentStatusData(m: Json)
    ensures Truthy(Agent(m)) && Truthy(Status(m)) && Truthy(StructuredData(m))
    ensures !Truthy(Path(m, ["assistant", "name"])) && !Truthy(Path(m, ["call", "assistant", "name"])) ==>
              Agent(m) == Str("Unknown Agent")
    ensures Truthy(Path(m, ["assistant", "name"])) ==> Agent(m) == Path(m, ["assistant", "name"])
    ensures !Truthy(Path(m, ["assistant", "name"])) && Truthy(Path(m, ["call", "assistant", "name"])) ==>
              Agent(m) == Path(m, ["call", "assistant", "name"])
    ensures !Truthy(Path(m, ["analysis", "structuredData"])) && !Truthy(Path(m, ["call", "analysis", "structuredData"])) ==>
              StructuredData(m) == Obj(map[])
    ensures !Truthy(Prop(m, "endedReason")) && !Truthy(Path(m, ["call", "endedReason"])) ==>
              Status(m) == Str("unknown")
    ensures Truthy(Prop(m, "endedReason")) ==> Status(m) == Prop(m, "endedReason")
    ensures !Truthy(Prop(m, "endedReason")) && Truthy(Path(m, ["call", "endedReason"])) ==>
              Status(m) == Path(m, ["call", "endedReason"])
    ensures var c := [Path(m, ["assistant", "name"]), Path(m, ["call", "assistant", "name"]), Str("Unknown Agent")];
              Agent(m) == c[FirstTruthyIndex(c)]
    ensures var c := [Prop(m, "endedReason"), Path(m, ["call", "endedReason"]), Str("unknown")];
              Status(m) == c[FirstTruthyIndex(c)]
    ensures var c := [Path(m, ["analysis", "structuredData"]), Path(m, ["call", "analysis", "structuredData"]), Obj(map[])];
              StructuredData(m) == c[FirstTruthyIndex(c)]
  {
    ChainIsFirstTruthy([Path(m, ["assistant", "name"]), Path(m, ["call", "assistant", "name"]), Str("Unknown Agent")]);
    ChainIsFirstTruthy([Prop(m, "endedReason"), Path(m, ["call", "endedReason"]), Str("unknown")]);
    ChainIsFirstTruthy([Path(m, ["analysis", "structuredData"]), Path(m, ["call", "analysis", "structuredData"]), Obj(map[])]);
  }

  /** The duration chain is its first truthy source and falls back to `0`. */
  lemma DurationField(m: Json)
    ensures Truthy(Duration(m)) || Duration(m) == Num(0.0)
    ensures !Truthy(Prop(m, "durationMinutes")) && !Truthy(Path(m, ["call", "durationMinutes"])) ==>
              Duration(m) == Num(0.0)
    ensures var c := [Prop(m, "durationMinutes"), Path(m, ["call", "durationMinutes"]), Num(0.0)];
              Duration(m) == c[FirstTruthyIndex(c)]
  {
    ChainIsFirstTruthy([Prop(m, "durationMinutes"), Path(m, ["call", "durationMinutes"]), Num(0.0)]);
  }

  /** The number and text chains are their first truthy source and fall back to
      the empty string. */
  lemma TextFields(m: Json)
    ensures Truthy(FromNumber(m)) || FromNumber(m) == Str("")
    ensures Truthy(ToNumber(m)) || ToNumber(m) == Str("")
    ensures Truthy(Summary(m)) || Summary(m) == Str("")
    ensures Truthy(Transcript(m)) || Transcript(m) == Str("")
    ensures Truthy(RecordingUrl(m)) || RecordingUrl(m) == Str("")
    ensures var c := [Path(m, ["phoneNumber", "number"]), Path(m, ["call", "phoneNumber", "number"]), Str("")];
              FromNumber(m) == c[FirstTruthyIndex(c)]
    ensures var c := [Path(m, ["customer", "number"]), Path(m, ["call", "customer", "number"]), Str("")];
              ToNumber(m) == c[FirstTruthyIndex(c)]
    ensures var c := [Prop(m, "summary"), Path(m, ["analysis", "summary"]), Path(m, ["call", "analysis", "summary"]), Str("")];
              Summary(m) == c[FirstTruthyIndex(c)]
    ensures var c := [Prop(m, "transcript"), Path(m, ["call", "transcript"]), Str("")];
              Transcript(m) == c[FirstTruthyIndex(c)]
    ensures var c := [Prop(m, "recordingUrl"), Prop(m, "stereoRecordingUrl"),
                      Path(m, ["call", "recordingUrl"]), Path(m, ["call", "stereoRecordingUrl"]), Str("")];
              RecordingUrl(m) == c[FirstTruthyIndex(c)]
  {
    ChainIsFirstTruthy([Path(m, ["phoneNumber", "number"]), Path(m, ["call", "phoneNumber", "number"]), Str("")]);
    ChainIsFirstTruthy([Path(m, ["customer", "number"]), Path(m, ["call", "customer", "number"]), Str("")]);
    ChainIsFirstTruthy([Prop(m, "summary"), Path(m, ["analysis", "summary"]), Path(m, ["call", "analysis", "summary"]), Str("")]);
    ChainIsFirstTruthy([Prop(m, "transcript"), Path(m, ["call", "transcript"]), Str("")]);
    ChainIsFirstTruthy([Prop(m, "recordingUrl"), Prop(m, "stereoRecordingUrl"),
                        Path(m, ["call", "recordingUrl"]), Path(m, ["call", "stereoRecordingUrl"]), Str("")]);
  }

  /** `callType`: outbound when either compared value is the string `outboundPhoneCall`. */
  function CallTypeOf(m: Json): CallType
  {
    if Path(m, ["call", "type"]) == Str("outboundPhoneCall") || Prop(m, "type") == Str("outboundPhoneCall")
    then Outbound else Inbound
  }

  /** Once the gate has let a message through, its own `type` is the report type,
      so only `call.type` can make the call outbound. */
  lemma CallTypeAfterGate(m: Json)
    requires IsEndOfCallReport(m)
    ensures CallTypeOf(m) == Outbound <==> Path(m, ["call", "type"]) == Str("outboundPhoneCall")
  {
  }

  /** `durationMinutes * 60 * 0.011`: exact for a number (and for `true`, which
      counts as 1); `NaN`, stored as `null`, for anything else. */
  function DefaultCost(duration: Json): (r: Json)
    ensures duration.Num? ==> r == Num(duration.n * 60.0 * 0.011)
    ensures duration == Bool(true) ==> r == Num(0.66)
  {
    match duration
    case Num(n) => Num(n * 60.0 * 0.011)
    case Bool(b) => Num(if b then 0.66 else 0.0)
    case Null => Num(0.0)
    case _ => Null
  }

  /** `message.cost || (durationMinutes * 60 * 0.011)`. */
  function Cost(m: Json): Json
  {
    Or(Prop(m, "cost"), DefaultCost(Duration(m)))
  }

  /** A truthy provider cost is kept as it is; otherwise the cost is 0.66 per minute
      of the extracted duration, and zero when no duration was reported. */
  lemma CostSpec(m: Json)
    ensures Truthy(Prop(m, "cost")) ==> Cost(m) == Prop(m, "cost")
    ensures !Truthy(Prop(m, "cost")) && Duration(m).Num? ==> Cost(m) == Num(0.66 * Duration(m).n)
    ensures !Truthy(Prop(m, "cost")) && !Truthy(Prop(m, "durationMinutes")) && !Truthy(Path(m, ["call", "durationMinutes"])) ==>
              Cost(m) == Num(0.0)
  {
    DurationField(m);
  }

  /** `successEvaluation`, chosen with `||`. */
  function Evaluation(m: Json): Json
  {
    Or(Path(m, ["analysis", "successEvaluation"]), Path(m, ["call", "analysis", "successEvaluation"]))
  }

  /** The if-chain on one evaluation value. */
  function Classify(ev: Json): (s: Sentiment)
    ensures ev == Bool(true) || ev == Str("true") || ev == Str("pass") ==> s == Positive
    ensures ev == Bool(false) || ev == Str("false") || ev == Str("fail") ==> s == Negative
    ensures ev.Num? && ev.n >= 7.0 ==> s == Positive
    ensures ev.Num? && ev.n <= 4.0 ==> s == Negative
    ensures s == Neutral <==>
              !(ev.Bool? || ev == Str("true") || ev == Str("pass") || ev == Str("false") || ev == Str("fail"))
              && !(ev.Num? && (ev.n >= 7.0 || ev.n <= 4.0))
  {
    if ev == Bool(true) || ev == Str("true") || ev == Str("pass") then Positive
    else if ev == Bool(false) || ev == Str("false") || ev == Str("fail") then Negative
    else if ev.Num? then (if ev.n >= 7.0 then Positive else if ev.n <= 4.0 then Negative else Neutral)
    else Neutral
  }

  function SentimentOf(m: Json): Sentiment
  {
    Classify(Evaluation(m))
  }

  /** Because of the `||`, a falsy evaluation under `analysis` is never classified:
      the one under `call.analysis` is, so a lone `false` (with nothing under
      `call.analysis`) gives neutral, not negative, and a lone `0` there too. */
  lemma SentimentSkipsFalsy(m: Json)
    ensures !Truthy(Path(m, ["analysis", "successEvaluation"])) ==>
              SentimentOf(m) == Classify(Path(m, ["call", "analysis", "successEvaluation"]))
    ensures Path(m, ["analysis", "successEvaluation"]) == Bool(false) && Path(m, ["call", "analysis", "successEvaluation"]) == Undefined ==>
              SentimentOf(m) == Neutral && Classify(Bool(false)) == Negative
  {
  }

  // ---------------------------------------------------------------------------
  // Tenant resolution

  /** What a `.maybeSingle()` lookup by id came back with. */
  datatype Lookup = LookupError | NoRow | Found(clientId: Json)

  /** The tables the cascade reads: `assistants` and `phone_numbers` by provider
      id, and the id of the first client with the default e-mail address
      (`undefined` when there is none or the query fails). */
  datatype Directory = Directory(
    assistants: map<Json, Lookup>, phoneNumbers: map<Json, Lookup>, defaultClient: Json)

  function LookupIn(table: map<Json, Lookup>, id: Json): Lookup
  {
    if id in table then table[id] else NoRow
  }

  /** One lookup step: a found row replaces the current client id, an error or a
      missing row leaves it as it was. */
  function Adopt(current: Json, result: Lookup): (r: Json)
    ensures result.Found? ==> r == result.clientId
    ensures !result.Found? ==> r == current
  {
    if result.Found? then result.clientId else current
  }

  datatype Resolution = Resolution(clientId: Json, phoneQueried: bool, defaultQueried: bool)

  /** The cascade starting from `clientId = null`. */
  function ResolveClient(dir: Directory, assistantId: Json, phoneNumberId: Json): Resolution
  {
    var afterAssistant := if Truthy(assistantId) then Adopt(Null, LookupIn(dir.assistants, assistantId)) else Null;
    var phoneQueried := !Truthy(afterAssistant) && Truthy(phoneNumberId);
    var afterPhone := if phoneQueried then Adopt(afterAssistant, LookupIn(dir.phoneNumbers, phoneNumberId)) else afterAssistant;
    var defaultQueried := !Truthy(afterPhone);
    Resolution(if defaultQueried then Or(dir.defaultClient, Null) else afterPhone, phoneQueried, defaultQueried)
  }

  /** The cascade's promises: the assistant's client wins when it is truthy, and
      then nothing else is queried; the phone-number table is queried exactly when
      the assistant step gave nothing truthy and a phone-number id exists; the
      default client is queried exactly when both steps gave nothing truthy; and
      the outcome is a truthy client id or `null`, never another falsy value. */
  lemma ResolveClientSpec(dir: Directory, assistantId: Json, phoneNumberId: Json)
    ensures var r := ResolveClient(dir, assistantId, phoneNumberId);
      Truthy(r.clientId) || r.clientId == Null
    ensures var r := ResolveClient(dir, assistantId, phoneNumberId);
      var fromAssistant := LookupIn(dir.assistants, assistantId);
      && (Truthy(assistantId) && fromAssistant.Found? && Truthy(fromAssistant.clientId) ==>
            r == Resolution(fromAssistant.clientId, false, false))
      && (r.phoneQueried <==>
            Truthy(phoneNumberId) && !(Truthy(assistantId) && fromAssistant.Found? && Truthy(fromAssistant.clientId)))
    ensures var r := ResolveClient(dir, assistantId, phoneNumberId);
      var fromPhone := LookupIn(dir.phoneNumbers, phoneNumberId);
      && (r.phoneQueried && fromPhone.Found? && Truthy(fromPhone.clientId) ==> r == Resolution(fromPhone.clientId, true, false))
      && (r.defaultQueried ==> r.clientId == (if Truthy(dir.defaultClient) then dir.defaultClient else Null))
      && (!r.defaultQueried ==> Truthy(r.clientId))
    ensures var r := ResolveClient(dir, assistantId, phoneNumberId);
      var fromAssistant := LookupIn(dir.assistants, assistantId);
      var fromPhone := LookupIn(dir.phoneNumbers, phoneNumberId);
      r.defaultQueried <==>
        && !(Truthy(assistantId) && fromAssistant.Found? && Truthy(fromAssistant.clientId))
        && !(r.phoneQueried && fromPhone.Found? && Truthy(fromPhone.clientId))
  {
  }

  /** A failed or empty lookup is harmless: with both tables erroring, the result is
      the same as with both tables empty. */
  lemma LookupErrorsLikeMissingRows(assistants: map<Json, Lookup>, phoneNumbers: map<Json, Lookup>, defaultClient: Json, assistantId: Json, phoneNumberId: Json)
    requires forall id :: id in assistants ==> assistants[id] == LookupError
    requires forall id :: id in phoneNumbers ==> phoneNumbers[id] == LookupError
    ensures ResolveClient(Directory(assistants, phoneNumbers, defaultClient), assistantId, phoneNumberId).clientId
         == ResolveClient(Directory(map[], map[], defaultClient), assistantId, phoneNumberId).clientId
  {
  }

  // ---------------------------------------------------------------------------
  // Normalisation and the handler

  /** Everything the handler computes before the insert. */
  function Normalize(body: Option<Json>, dir: Directory): (r: Result<CallRecord, Rejection>)
    ensures r == Err(InvalidRequestFormat) <==> MessageOf(body).Err?
    ensures r == Err(InvalidWebhookType) <==> MessageOf(body).Ok? && !IsEndOfCallReport(MessageOf(body).value)
  {
    var message := MessageOf(body);
    if message.Err? then Err(message.error)
    else if !IsEndOfCallReport(message.value) then Err(InvalidWebhookType)
    else
      var m := message.value;
      var resolution := ResolveClient(dir,
        Or(Path(m, ["assistant", "id"]), Path(m, ["call", "assistant", "id"])),
        Or(Path(m, ["phoneNumber", "id"]), Path(m, ["call", "phoneNumber", "id"])));
      Ok(CallRecord(
        CallId(m), Agent(m), FromNumber(m), ToNumber(m), CallTypeOf(m), Status(m), SentimentOf(m),
        Duration(m), Cost(m), Summary(m), Transcript(m), RecordingUrl(m), StructuredData(m),
        StartedAt(m), EndedAt(m), resolution.clientId))
  }

  datatype WebhookResponse =
    | Preflight
    | MethodNotAllowed
    | BadRequest(reason: Rejection)
    | StoreFailed
    | Stored(record: CallRecord)

  function StatusCode(r: WebhookResponse): (code: nat)
    ensures r.BadRequest? <==> code == 400
    ensures r.Stored? || r.Preflight? <==> code == 200
  {
    match r
    case Preflight => 200
    case MethodNotAllowed => 405
    case BadRequest(_) => 400
    case StoreFailed => 500
    case Stored(_) => 200
  }

  /** The `call_reports` table. */
  class CallReportTable {
    var records: seq<CallRecord>

    constructor (records: seq<CallRecord>)
      ensures this.records == records
    {
      this.records := records;
    }

    /** The handler. `insertFails` says whether the insert reports an error. An
        accepted report is appended as a new row even when a row with its call id
        is already stored. */
    method Receive(httpMethod: string, body: Option<Json>, dir: Directory, insertFails: bool)
      returns (resp: WebhookResponse)
      modifies this
      ensures httpMethod != "POST" ==>
                resp == (if httpMethod == "OPTIONS" then Preflight else MethodNotAllowed)
      ensures httpMethod == "POST" && Normalize(body, dir).Err? ==> resp == BadRequest(Normalize(body, dir).error)
      ensures httpMethod == "POST" && Normalize(body, dir).Ok? ==>
                resp == if insertFails then StoreFailed else Stored(Normalize(body, dir).value)
      ensures records == old(records) + (if resp.Stored? then [resp.record] else [])
    {
      if httpMethod == "OPTIONS" {
        return Preflight;
      }
      if httpMethod != "POST" {
        return MethodNotAllowed;
      }
      var normalized := Normalize(body, dir);
      if normalized.Err? {
        return BadRequest(normalized.error);
      }
      if insertFails {
        return StoreFailed;
      }
      records := records + [normalized.value];
      return Stored(normalized.value);
    }
  }

  /** Delivering the same report twice stores it twice. */
  method Redeliver(table: CallReportTable, body: Option<Json>, dir: Directory)
    returns (first: WebhookResponse, second: WebhookResponse)
    requires Normalize(body, dir).Ok?
    modifies table
    ensures first == second && first.Stored?
    ensures table.records == old(table.records) + [first.record, first.record]
  {
    var rec := Normalize(body, dir).value;
    first := table.Receive("POST", body, dir, false);
    assert first == Stored(rec);
    second := table.Receive("POST", body, dir, false);
    assert second == Stored(rec);
    assert table.records == old(table.records) + [rec] + [rec];
  }
}
