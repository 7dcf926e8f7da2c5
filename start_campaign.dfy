/** The `start-campaign` server function: it resolves a campaign's assistant and
    caller number, turns every contact row into a pending job, asks the calling
    provider for one outbound call per row in batches of five, records each
    answer on the matching jobs, and writes the final counters and status. */
module StartCampaign {
  import opened Wrappers
  import opened Json

  /** A contact row as it arrives in the request body. */
  type Row = map<string, Json>

  const BatchSize: nat := 5

  function Min(a: int, b: int): int
  {
    if a <= b then a else b
  }

  // ---------------------------------------------------------------------------
  // Jobs

  datatype JobStatus = Pending | Calling | Failed

  /** A row of the `campaign_calls` table. */
  datatype Job = Job(campaignId: string, phone: Json, variables: Row, status: JobStatus, callId: Json)

  /** `row.phone_number`, `undefined` when the row has no such key. */
  function PhoneOf(row: Row): (r: Json)
    ensures "phone_number" in row ==> r == row["phone_number"]
    ensures "phone_number" !in row ==> r == Undefined
  {
    if "phone_number" in row then row["phone_number"] else Undefined
  }

  /** The rest of the row after `const { phone_number, ...variableValues } = row`:
      every other key with its value, and nothing lost, since putting the phone back
      gives the row again. */
  function VariablesOf(row: Row): (vars: Row)
    ensures "phone_number" !in vars
    ensures vars.Keys == row.Keys - {"phone_number"}
    ensures forall k :: k in vars ==> vars[k] == row[k]
    ensures "phone_number" in row ==> vars["phone_number" := PhoneOf(row)] == row
    ensures "phone_number" !in row ==> vars == row
  {
    row - {"phone_number"}
  }

  /** The pending job created for one row of campaign `cid`. */
  function NewJob(cid: string, row: Row): Job
  {
    Job(cid, PhoneOf(row), VariablesOf(row), Pending, Null)
  }

  /** `campaignCalls`: one job per row, in row order. */
  function NewJobs(cid: string, rows: seq<Row>): (jobs: seq<Job>)
    ensures |jobs| == |rows|
    ensures forall k :: 0 <= k < |rows| ==> jobs[k] == NewJob(cid, rows[k])
  {
    if rows == [] then [] else [NewJob(cid, rows[0])] + NewJobs(cid, rows[1..])
  }

  /** Every created job is pending, belongs to the campaign, carries its row's phone,
      and lets the row be rebuilt from its phone and variables. */
  lemma NewJobsSpec(cid: string, rows: seq<Row>)
    ensures forall k :: 0 <= k < |rows| ==>
              var j := NewJobs(cid, rows)[k];
              && j.status == Pending && j.campaignId == cid && j.callId == Null
              && j.phone == PhoneOf(rows[k]) && "phone_number" !in j.variables
              && ("phone_number" in rows[k] ==> j.variables["phone_number" := j.phone] == rows[k])
              && ("phone_number" !in rows[k] ==> j.variables == rows[k])
  {
  }

  // ---------------------------------------------------------------------------
  // Provider answers and their effect on the job table

  /** What one provider request came to: an ok response with the body's `id`, a
      non-ok response whose body was read, or an exception (from `fetch` or from
      reading a body). */
  datatype ProviderReply = Accepted(id: Json) | Rejected | Threw

  /** The update `.eq('campaign_id', cid).eq('phone_number', phone)` selects. */
  predicate Matches(job: Job, cid: string, phone: Json)
  {
    phone.Str? && job.campaignId == cid && job.phone == phone
  }

  /** A selected job after the update a reply triggers. An ok body without an
      `id` leaves `call_id` out of the serialised update, so the stored id stays. */
  function Settled(job: Job, reply: ProviderReply): (r: Job)
    ensures r.campaignId == job.campaignId && r.phone == job.phone && r.variables == job.variables
    ensures reply.Accepted? ==> r.status == Calling
    ensures reply.Accepted? && reply.id != Undefined ==> r.callId == reply.id
    ensures reply.Accepted? && reply.id == Undefined ==> r.callId == job.callId
    ensures reply.Rejected? ==> r.status == Failed && r.callId == job.callId
    ensures reply.Threw? ==> r == job
  {
    match reply
    case Accepted(id) => job.(status := Calling, callId := if id == Undefined then job.callId else id)
    case Rejected => job.(status := Failed)
    case Threw => job
  }

  /** The job table after one reply: every job the update selects is settled, the
      others are left alone. */
  function Settle(jobs: seq<Job>, cid: string, phone: Json, reply: ProviderReply): (r: seq<Job>)
    ensures |r| == |jobs|
    ensures forall p :: 0 <= p < |jobs| && !Matches(jobs[p], cid, phone) ==> r[p] == jobs[p]
    ensures forall p :: 0 <= p < |jobs| && Matches(jobs[p], cid, phone) ==> r[p] == Settled(jobs[p], reply)
  {
    seq(|jobs|, p requires 0 <= p < |jobs| => if Matches(jobs[p], cid, phone) then Settled(jobs[p], reply) else jobs[p])
  }

  /** The job table once the replies to the first `m` rows have been recorded. */
  function Dispatch(jobs: seq<Job>, cid: string, rows: seq<Row>, provider: nat -> ProviderReply, m: nat): (r: seq<Job>)
    requires m <= |rows|
    ensures |r| == |jobs|
  {
    if m == 0 then jobs
    else Settle(Dispatch(jobs, cid, rows, provider, m - 1), cid, PhoneOf(rows[m - 1]), provider(m - 1))
  }

  /** No other row of the list has row `k`'s phone. */
  predicate UniquePhone(rows: seq<Row>, k: nat)
    requires k < |rows|
  {
    forall j :: 0 <= j < |rows| && j != k ==> PhoneOf(rows[j]) != PhoneOf(rows[k])
  }

  /** Jobs of other campaigns, and jobs whose phone no row has, are never touched. */
  lemma {:induction false} DispatchLeavesOthers(jobs: seq<Job>, cid: string, rows: seq<Row>, provider: nat -> ProviderReply, m: nat, p: nat)
    requires m <= |rows| && p < |jobs|
    requires jobs[p].campaignId != cid || forall k :: 0 <= k < |rows| ==> PhoneOf(rows[k]) != jobs[p].phone
    ensures Dispatch(jobs, cid, rows, provider, m)[p] == jobs[p]
  {
    if m > 0 {
      DispatchLeavesOthers(jobs, cid, rows, provider, m - 1, p);
    }
  }

  /** A job whose string phone belongs to exactly one row `k` is settled by that row's
      reply, once it has been received, and by nothing else. */
  lemma {:induction false} DispatchOwnRow(jobs: seq<Job>, cid: string, rows: seq<Row>, provider: nat -> ProviderReply, m: nat, p: nat, k: nat)
    requires m <= |rows| && p < |jobs| && k < |rows|
    requires jobs[p].campaignId == cid && jobs[p].phone == PhoneOf(rows[k]) && PhoneOf(rows[k]).Str?
    requires UniquePhone(rows, k)
    ensures Dispatch(jobs, cid, rows, provider, m)[p] == if k < m then Settled(jobs[p], provider(k)) else jobs[p]
  {
    if m > 0 {
      DispatchOwnRow(jobs, cid, rows, provider, m - 1, p, k);
    }
  }

  /** The fate of the job created for row `k` when its phone is a string no other row
      shares: `calling` exactly on an ok response, holding the provider's id when
      the body has one and `null` otherwise, `failed` exactly on a non-ok one, and
      still `pending` after an exception. */
  lemma JobOutcome(jobs: seq<Job>, cid: string, rows: seq<Row>, provider: nat -> ProviderReply, k: nat)
    requires k < |rows| && PhoneOf(rows[k]).Str? && UniquePhone(rows, k)
    ensures var j := Dispatch(jobs + NewJobs(cid, rows), cid, rows, provider, |rows|)[|jobs| + k];
      && (j.status == Calling <==> provider(k).Accepted?)
      && (j.status == Failed <==> provider(k).Rejected?)
      && (j.status == Pending <==> provider(k).Threw?)
      && (provider(k).Accepted? && provider(k).id != Undefined ==> j.callId == provider(k).id)
      && (!provider(k).Accepted? || provider(k).id == Undefined ==> j.callId == Null)
      && j.campaignId == cid && j.phone == PhoneOf(rows[k]) && j.variables == VariablesOf(rows[k])
  {
    var all := jobs + NewJobs(cid, rows);
    var job := NewJob(cid, rows[k]);
    assert all[|jobs| + k] == job;
    DispatchOwnRow(all, cid, rows, provider, |rows|, |jobs| + k, k);
    var j := Dispatch(all, cid, rows, provider, |rows|)[|jobs| + k];
    assert j == Settled(job, provider(k));
  }

  // ---------------------------------------------------------------------------
  // Counters

  /** How many of the first `m` rows got an ok response. */
  function CountAccepted(provider: nat -> ProviderReply, m: nat): (c: nat)
    ensures c <= m
  {
    if m == 0 then 0 else CountAccepted(provider, m - 1) + (if provider(m - 1).Accepted? then 1 else 0)
  }

  /** The success counter is zero exactly when no row got an ok response, and equals
      the row count exactly when every row did. */
  lemma {:induction false} CountAcceptedExtremes(provider: nat -> ProviderReply, m: nat)
    ensures CountAccepted(provider, m) == 0 <==> forall k :: 0 <= k < m ==> !provider(k).Accepted?
    ensures CountAccepted(provider, m) == m <==> forall k :: 0 <= k < m ==> provider(k).Accepted?
  {
    if m > 0 {
      CountAcceptedExtremes(provider, m - 1);
    }
  }

  // ---------------------------------------------------------------------------
  // Batches

  /** The slices `s[i..i+5]`, `s[i+5..i+10]`, ... the loop walks from position `i`. */
  function Batches<T>(s: seq<T>, i: nat): seq<seq<T>>
    decreases |s| - i
  {
    if i >= |s| then [] else [s[i..Min(i + BatchSize, |s|)]] + Batches(s, i + BatchSize)
  }

  /** One step of the walk: the batch at `i`, then the batches from where it ends. */
  lemma BatchesStep<T>(s: seq<T>, i: nat)
    requires i < |s|
    ensures Batches(s, i) == [s[i..Min(i + BatchSize, |s|)]] + Batches(s, Min(i + BatchSize, |s|))
  {
    if i + BatchSize >= |s| {
      assert Batches(s, |s|) == [] && Batches(s, i + BatchSize) == [];
    }
  }

  function Flatten<T>(ss: seq<seq<T>>): seq<T>
  {
    if ss == [] then [] else ss[0] + Flatten(ss[1..])
  }

  /** The batches partition the rows: in order, each row in exactly one batch, every
      batch holding one to five rows, and `ceil((|s| - i) / 5)` of them. */
  lemma {:induction false} BatchesPartition<T>(s: seq<T>, i: nat)
    requires i <= |s|
    ensures Flatten(Batches(s, i)) == s[i..]
    ensures forall b :: b in Batches(s, i) ==> 0 < |b| <= BatchSize
    ensures |Batches(s, i)| == (|s| - i + BatchSize - 1) / BatchSize
    decreases |s| - i
  {
    if i < |s| {
      var e := Min(i + BatchSize, |s|);
      BatchesPartition(s, e);
      if e < i + BatchSize {
        assert Batches(s, i + BatchSize) == [];
      }
      assert s[i..] == s[i..e] + s[e..];
    }
  }

  /** Batch `j` is exactly the rows at positions `i + 5j` up to `i + 5j + 5`. */
  lemma {:induction false} BatchesIndex<T>(s: seq<T>, i: nat)
    ensures forall j :: 0 <= j < |Batches(s, i)| ==>
              i + BatchSize * j < |s| && Batches(s, i)[j] == s[i + BatchSize * j..Min(i + BatchSize * j + BatchSize, |s|)]
    decreases |s| - i
  {
    if i < |s| {
      BatchesIndex(s, i + BatchSize);
      forall j | 0 < j < |Batches(s, i)|
        ensures i + BatchSize * j < |s| && Batches(s, i)[j] == s[i + BatchSize * j..Min(i + BatchSize * j + BatchSize, |s|)]
      {
        assert Batches(s, i)[j] == Batches(s, i + BatchSize)[j - 1];
        assert i + BatchSize + BatchSize * (j - 1) == i + BatchSize * j;
      }
    }
  }

  // ---------------------------------------------------------------------------
  // The handler

  /** A `campaigns` row: the referenced assistant and caller-number rows (either may
      be null), the status and the two counters. */
  datatype Campaign = Campaign(
    assistantRef: Option<string>, phoneNumberRef: Option<string>,
    status: string, completedCalls: nat, failedCalls: nat)

  /** The campaign row after the final update: `running` when some request was
      accepted, `failed` otherwise, with both counters written. */
  function Finished(c: Campaign, successCount: nat, failCount: nat): Campaign
  {
    c.(status := if successCount > 0 then "running" else "failed",
       completedCalls := successCount, failedCalls := failCount)
  }

  datatype Missing = CampaignMissing | AssistantMissing | PhoneNumberMissing

  datatype ServerFault = CallsInsertFailed | ApiKeyMissing

  datatype Response =
    | Preflight
    | MethodNotAllowed
    | NotFound(what: Missing)
    | ServerError(fault: ServerFault)
    | Started(successCount: nat, failCount: nat)

  function StatusCode(r: Response): (code: nat)
    ensures r.NotFound? <==> code == 404
    ensures r.ServerError? <==> code == 500
  {
    match r
    case Preflight => 200
    case MethodNotAllowed => 405
    case NotFound(_) => 404
    case ServerError(_) => 500
    case Started(_, _) => 200
  }

  /** What the run did besides changing the tables: the batches it dispatched and
      the pauses it took between them. */
  datatype Trace = Trace(batches: seq<seq<Row>>, pauses: nat)

  /** What a POST does to the tables, from `campaigns0` and `jobs0` to `campaigns1`
      and `jobs1`, given the outcome `lookup` of the three lookups. A failed lookup
      answers 404 and writes nothing. Otherwise the status is set to `running`
      first. A failed insert then answers 500 with no job added. A missing key
      answers 500 with the jobs inserted but no call made. Otherwise every row is
      dispatched and the counters are written. */
  predicate PostOutcome(campaigns0: map<string, Campaign>, jobs0: seq<Job>, lookup: Result<(string, string), Missing>,
                        cid: string, rows: seq<Row>, insertFails: bool, apiKey: Option<string>,
                        provider: nat -> ProviderReply,
                        resp: Response, trace: Trace, campaigns1: map<string, Campaign>, jobs1: seq<Job>)
  {
    && (lookup.Err? ==>
          && resp == NotFound(lookup.error)
          && campaigns1 == campaigns0 && jobs1 == jobs0 && trace.batches == [])
    && (lookup.Ok? && (insertFails || apiKey.None? || apiKey.value == "") ==>
          && resp == ServerError(if insertFails then CallsInsertFailed else ApiKeyMissing)
          && cid in campaigns0
          && campaigns1 == campaigns0[cid := campaigns0[cid].(status := "running")]
          && jobs1 == jobs0 + (if insertFails then [] else NewJobs(cid, rows))
          && trace.batches == [])
    && (lookup.Ok? && !insertFails && apiKey.Some? && apiKey.value != "" ==>
          var s := CountAccepted(provider, |rows|);
          && resp == Started(s, |rows| - s)
          && cid in campaigns0
          && campaigns1 == campaigns0[cid := Finished(campaigns0[cid], s, |rows| - s)]
          && jobs1 == Dispatch(jobs0 + NewJobs(cid, rows), cid, rows, provider, |rows|)
          && trace.batches == Batches(rows, 0)
          && trace.pauses == (if |rows| == 0 then 0 else |trace.batches| - 1))
  }

  /** The dispatch path of a POST: the final counter update overwrites the
      status written before the insert, so the campaign ends as `Finished` of
      the row read at the start. */
  lemma StartedOutcome(campaigns0: map<string, Campaign>, jobs0: seq<Job>, lookup: Result<(string, string), Missing>,
                       cid: string, rows: seq<Row>, apiKey: Option<string>, provider: nat -> ProviderReply,
                       s: nat, f: nat, trace: Trace, campaigns1: map<string, Campaign>, jobs1: seq<Job>)
    requires lookup.Ok? && cid in campaigns0 && apiKey.Some? && apiKey.value != ""
    requires s == CountAccepted(provider, |rows|) && s + f == |rows|
    requires campaigns1 == campaigns0[cid := campaigns0[cid].(status := "running")][cid := Finished(campaigns0[cid].(status := "running"), s, f)]
    requires jobs1 == Dispatch(jobs0 + NewJobs(cid, rows), cid, rows, provider, |rows|)
    requires trace.batches == Batches(rows, 0) && trace.pauses == (if |rows| == 0 then 0 else |trace.batches| - 1)
    ensures PostOutcome(campaigns0, jobs0, lookup, cid, rows, false, apiKey, provider, Started(s, f), trace, campaigns1, jobs1)
  {
    var c := campaigns0[cid];
    var done := Finished(c, s, f);
    assert Finished(c.(status := "running"), s, f) == done;
    assert campaigns1 == campaigns0[cid := done] by {
      assert campaigns0[cid := c.(status := "running")][cid := done] == campaigns0[cid := done];
    }
    assert |rows| - s == f;
  }

  /** The database tables the function reads and writes. */
  class CampaignDb {
    var campaigns: map<string, Campaign>
    /** `assistants.id` to the provider's assistant id. */
    var assistants: map<string, string>
    /** `phone_numbers.id` to the provider's phone-number id. */
    var phoneNumbers: map<string, string>
    var jobs: seq<Job>

    constructor (campaigns: map<string, Campaign>, assistants: map<string, string>,
                 phoneNumbers: map<string, string>, jobs: seq<Job>)
      ensures this.campaigns == campaigns && this.assistants == assistants
      ensures this.phoneNumbers == phoneNumbers && this.jobs == jobs
    {
      this.campaigns := campaigns;
      this.assistants := assistants;
      this.phoneNumbers := phoneNumbers;
      this.jobs := jobs;
    }

    /** The three `.single()` lookups, in order: the provider's assistant id and
        phone-number id, or the first one that finds no row. */
    function Lookup(cid: string): (r: Result<(string, string), Missing>)
      reads this
      ensures r.Ok? <==>
                && cid in campaigns
                && campaigns[cid].assistantRef.Some? && campaigns[cid].assistantRef.value in assistants
                && campaigns[cid].phoneNumberRef.Some? && campaigns[cid].phoneNumberRef.value in phoneNumbers
      ensures r == Err(CampaignMissing) <==> cid !in campaigns
    {
      if cid !in campaigns then Err(CampaignMissing)
      else
        var c := campaigns[cid];
        if c.assistantRef.None? || c.assistantRef.value !in assistants then Err(AssistantMissing)
        else if c.phoneNumberRef.None? || c.phoneNumberRef.value !in phoneNumbers then Err(PhoneNumberMissing)
        else Ok((assistants[c.assistantRef.value], phoneNumbers[c.phoneNumberRef.value]))
    }

    /** The handler. `insertFails` says whether the job insert reports an error,
        `apiKey` is the configured provider key and `provider(k)` the provider's
        answer to the request for row `k`. */
    method Start(httpMethod: string, cid: string, rows: seq<Row>, insertFails: bool,
                 apiKey: Option<string>, provider: nat -> ProviderReply)
      returns (resp: Response, trace: Trace)
      modifies this
      ensures assistants == old(assistants) && phoneNumbers == old(phoneNumbers)
      ensures httpMethod != "POST" ==>
                && resp == (if httpMethod == "OPTIONS" then Preflight else MethodNotAllowed)
                && campaigns == old(campaigns) && jobs == old(jobs) && trace.batches == []
      ensures httpMethod == "POST" ==>
                PostOutcome(old(campaigns), old(jobs), old(Lookup(cid)), cid, rows, insertFails, apiKey, provider,
                            resp, trace, campaigns, jobs)
    {
      if httpMethod == "OPTIONS" {
        return Preflight, Trace([], 0);
      }
      if httpMethod != "POST" {
        return MethodNotAllowed, Trace([], 0);
      }
      resp, trace := Post(cid, rows, insertFails, apiKey, provider);
    }

    /** A POST: the lookups, the status write, the insert, the key check, and then
        the dispatch. */
    method Post(cid: string, rows: seq<Row>, insertFails: bool, apiKey: Option<string>, provider: nat -> ProviderReply)
      returns (resp: Response, trace: Trace)
      modifies this
      ensures assistants == old(assistants) && phoneNumbers == old(phoneNumbers)
      ensures PostOutcome(old(campaigns), old(jobs), old(Lookup(cid)), cid, rows, insertFails, apiKey, provider,
                          resp, trace, campaigns, jobs)
    {
      trace := Trace([], 0);
      ghost var campaigns0, jobs0 := campaigns, jobs;
      var found := Lookup(cid);
      if found.Err? {
        resp := NotFound(found.error);
        return;
      }
      campaigns := campaigns[cid := campaigns[cid].(status := "running")];
      if insertFails {
        resp := ServerError(CallsInsertFailed);
        return;
      }
      jobs := jobs + NewJobs(cid, rows);
      if apiKey.None? || apiKey.value == "" {
        resp := ServerError(ApiKeyMissing);
        return;
      }

      var successCount, failCount;
      successCount, failCount, trace := Dispatched(cid, rows, provider);
      resp := Started(successCount, failCount);
      StartedOutcome(campaigns0, jobs0, found, cid, rows, apiKey, provider, successCount, failCount, trace, campaigns, jobs);
    }

    /** From the batch loop on: every row is sent and counted, then the campaign's
        status and counters are written. */
    method Dispatched(cid: string, rows: seq<Row>, provider: nat -> ProviderReply)
      returns (successCount: nat, failCount: nat, trace: Trace)
      requires cid in campaigns
      modifies this
      ensures assistants == old(assistants) && phoneNumbers == old(phoneNumbers)
      ensures successCount == CountAccepted(provider, |rows|) && successCount + failCount == |rows|
      ensures jobs == Dispatch(old(jobs), cid, rows, provider, |rows|)
      ensures campaigns == old(campaigns)[cid := Finished(old(campaigns)[cid], successCount, failCount)]
      ensures trace.batches == Batches(rows, 0)
      ensures trace.pauses == (if |rows| == 0 then 0 else |trace.batches| - 1)
    {
      successCount, failCount, trace := DispatchAll(cid, rows, provider);
      campaigns := campaigns[cid := campaigns[cid].(
        status := if successCount > 0 then "running" else "failed",
        completedCalls := successCount, failedCalls := failCount)];
    }

    /** The batch loop: rows `[i, i+5)` are sent together, a pause follows every
        batch but the last, and every row adds one to exactly one counter. */
    method DispatchAll(cid: string, rows: seq<Row>, provider: nat -> ProviderReply)
      returns (successCount: nat, failCount: nat, trace: Trace)
      modifies this
      ensures campaigns == old(campaigns) && assistants == old(assistants) && phoneNumbers == old(phoneNumbers)
      ensures successCount == CountAccepted(provider, |rows|)
      ensures successCount + failCount == |rows|
      ensures jobs == Dispatch(old(jobs), cid, rows, provider, |rows|)
      ensures trace.batches == Batches(rows, 0)
      ensures trace.pauses == (if |rows| == 0 then 0 else |trace.batches| - 1)
    {
      ghost var base := jobs;
      successCount, failCount := 0, 0;
      var batches: seq<seq<Row>> := [];
      var pauses: nat := 0;
      var i := 0;
      while i < |rows|
        invariant i <= |rows|
        invariant successCount + failCount == i
        invariant successCount == CountAccepted(provider, i)
        invariant jobs == Dispatch(base, cid, rows, provider, i)
        invariant batches + Batches(rows, i) == Batches(rows, 0)
        invariant i < |rows| ==> i == BatchSize * |batches|
        invariant pauses == |batches| - (if i > 0 && i == |rows| then 1 else 0)
        invariant campaigns == old(campaigns) && assistants == old(assistants) && phoneNumbers == old(phoneNumbers)
        decreases |rows| - i
      {
        var next := Min(i + BatchSize, |rows|);
        var batch := rows[i..next];
        successCount, failCount := SendBatch(cid, rows, i, batch, provider, successCount, failCount, base);
        BatchesStep(rows, i);
        batches := batches + [batch];
        if i + BatchSize < |rows| {
          pauses := pauses + 1;
        }
        // Past the last batch the counter stops at the row count: the loop test
        // and the pause test read the same as with `i += batchSize`.
        i := next;
      }
      trace := Trace(batches, pauses);
    }

    /** One batch, starting at row `i`: each row's reply is recorded on the jobs the
        update selects and counted. */
    method SendBatch(cid: string, rows: seq<Row>, i: nat, batch: seq<Row>, provider: nat -> ProviderReply,
                     success0: nat, fail0: nat, ghost base: seq<Job>)
      returns (successCount: nat, failCount: nat)
      requires i + |batch| <= |rows| && batch == rows[i..i + |batch|]
      requires success0 + fail0 == i && success0 == CountAccepted(provider, i)
      requires jobs == Dispatch(base, cid, rows, provider, i)
      modifies this
      ensures campaigns == old(campaigns) && assistants == old(assistants) && phoneNumbers == old(phoneNumbers)
      ensures successCount + failCount == i + |batch|
      ensures successCount == CountAccepted(provider, i + |batch|)
      ensures jobs == Dispatch(base, cid, rows, provider, i + |batch|)
    {
      successCount, failCount := success0, fail0;
      for t := 0 to |batch|
        invariant successCount + failCount == i + t
        invariant successCount == CountAccepted(provider, i + t)
        invariant jobs == Dispatch(base, cid, rows, provider, i + t)
        invariant campaigns == old(campaigns) && assistants == old(assistants) && phoneNumbers == old(phoneNumbers)
      {
        assert batch[t] == rows[i + t];
        var phone := PhoneOf(batch[t]);
        var reply := provider(i + t);
        match reply {
          case Accepted(_) =>
            jobs := Settle(jobs, cid, phone, reply);
            successCount := successCount + 1;
          case Rejected =>
            jobs := Settle(jobs, cid, phone, reply);
            failCount := failCount + 1;
          case Threw =>
            assert Settle(jobs, cid, phone, reply) == jobs;
            failCount := failCount + 1;
        }
      }
    }
  }

  /** After a dispatched run the campaign row ends `failed` exactly when no provider
      request was accepted and `running` exactly when one was; it never ends
      `completed`, and its two counters add up to the rows sent. */
  lemma StartOutcome(c: Campaign, provider: nat -> ProviderReply, rows: seq<Row>)
    ensures var s := CountAccepted(provider, |rows|);
      var done := Finished(c, s, |rows| - s);
      && (done.status == "failed" <==> forall k :: 0 <= k < |rows| ==> !provider(k).Accepted?)
      && (done.status == "running" <==> exists k :: 0 <= k < |rows| && provider(k).Accepted?)
      && done.status != "completed"
      && done.completedCalls + done.failedCalls == |rows|
  {
    var s := CountAccepted(provider, |rows|);
    CountAcceptedExtremes(provider, |rows|);
    // The three status literals differ in their first letter.
    assert "running"[0] != "failed"[0] && "running"[0] != "completed"[0] && "failed"[0] != "completed"[0];
    if s == 0 {
      assert !exists k :: 0 <= k < |rows| && provider(k).Accepted?;
    } else {
      var k :| 0 <= k < |rows| && provider(k).Accepted?;
    }
  }
}
