/**
 * The flag-and-send workflow. Each step is given twice: as a function that
 * says what the step returns and which host calls it makes (a `Run`), and as
 * a method over the host double that is proved to do exactly that. The lemmas
 * at the end state the workflow's promises about the runs.
 */
module FlagService {
  import opened Wrappers
  import opened Mailbox
  import Decimal

  /** The rejection message that means "the host cannot send; ask the user to". */
  const SendUnavailable := "SEND_UNAVAILABLE"

  /** Start and due as ISO-8601 date-time text, passed through unchanged. */
  datatype FlagDates = FlagDates(startDate: string, dueDate: string)

  /** What a step settles with, and the host calls it made in order. */
  datatype Run<T> = Run(result: Result<T>, calls: seq<Call>)

  /** `result.error?.message ?? fallback`. */
  function MessageOr(message: Option<string>, fallback: string): (m: string)
    ensures message == Some(m) || (message == None && m == fallback)
  {
    match message
    case Some(m) => m
    case None => fallback
  }

  function FromAsync<T>(r: AsyncResult<T>, fallback: string): (res: Result<T>)
    ensures r.Succeeded? <==> res.Ok?
    ensures r.Succeeded? ==> res.value == r.value
    ensures r == Failed(None) ==> res == Err(fallback)
    ensures r.Failed? && r.message.Some? ==> res == Err(r.message.value)
  {
    match r
    case Succeeded(v) => Ok(v)
    case Failed(m) => Err(MessageOr(m, fallback))
  }

  // ---- The steps as runs ----

  /** Token, id conversion and PATCH all succeed. */
  predicate RestPathSucceeds(env: Env) {
    env.token.Succeeded? && env.restId.Ok? && env.response.IsOk()
  }

  /** The draft was saved and the flag was set on one of the two paths. */
  predicate FlagUpdated(env: Env) {
    env.save.Succeeded? && (RestPathSucceeds(env) || env.ews.Succeeded?)
  }

  function SaveDraftRun(env: Env): (r: Run<string>)
    ensures r.calls == [SaveAsync]
    ensures r.result.Ok? <==> env.save.Succeeded?
    ensures env.save == Failed(None) ==> r.result == Err("saveAsync failed")
  {
    Run(FromAsync(env.save, "saveAsync failed"), [SaveAsync])
  }

  function RestTokenRun(env: Env): (r: Run<string>)
    ensures r.calls == [GetCallbackTokenAsync(true)]
    ensures r.result.Ok? <==> env.token.Succeeded?
    ensures env.token == Failed(None) ==> r.result == Err("getCallbackTokenAsync failed")
  {
    Run(FromAsync(env.token, "getCallbackTokenAsync failed"), [GetCallbackTokenAsync(true)])
  }

  function ToRestIdRun(env: Env, ewsId: string): (r: Run<string>)
    ensures r.calls == [ConvertToRestId(ewsId)]
    ensures r.result.Ok? <==> env.restId.Ok?
  {
    Run(env.restId, [ConvertToRestId(ewsId)])
  }

  /** The request `patchFlagRest` issues for a message, a token and the dates. */
  function PatchRequestFor(restId: string, token: string, dates: FlagDates): (req: PatchRequest)
    ensures req.restId == restId
    ensures |req.authorization| >= 7 && req.authorization[..7] == "Bearer " && req.authorization[7..] == token
    ensures req.body.startDateTime.dateTime == dates.startDate && req.body.dueDateTime.dateTime == dates.dueDate
    ensures req.body.startDateTime.timeZone == req.body.dueDateTime.timeZone == "UTC"
  {
    PatchRequest(
      restId,
      "Bearer " + token,
      "application/json",
      FlagBody("Flagged",
        DateTimeTimeZone(dates.startDate, "UTC"),
        DateTimeTimeZone(dates.dueDate, "UTC")))
  }

  /** The error `patchFlagRest` throws for a response that is not ok. */
  function PatchFailureMessage(status: int, text: string): (m: string)
    ensures |m| > 22 + |text| && m[..19] == "REST PATCH failed (" && m[|m| - |text|..] == text
  {
    "REST PATCH failed (" + Decimal.IntToString(status) + "): " + text
  }

  function PatchFlagRestRun(env: Env, restId: string, token: string, dates: FlagDates): (r: Run<()>)
    ensures r.calls == [Fetch(PatchRequestFor(restId, token, dates))]
    ensures r.result.Ok? <==> env.response.IsOk()
    ensures env.response.NetworkError? ==> r.result == Err(env.response.message)
  {
    var result :=
      match env.response
      case NetworkError(m) => Err(m)
      case Response(status, text) =>
        if env.response.IsOk() then Ok(()) else Err(PatchFailureMessage(status, text));
    Run(result, [Fetch(PatchRequestFor(restId, token, dates))])
  }

  /** The try-block of `setFlagAndSend`: token, id conversion, REST PATCH. */
  function RestPathRun(env: Env, ewsId: string, dates: FlagDates): (r: Run<()>)
    ensures r.result.Ok? <==> RestPathSucceeds(env)
    ensures 1 <= |r.calls| <= 3 && r.calls[0] == GetCallbackTokenAsync(true)
  {
    var token := RestTokenRun(env);
    if token.result.Err? then Run(Err(token.result.message), token.calls)
    else
      var restId := ToRestIdRun(env, ewsId);
      if restId.result.Err? then Run(Err(restId.result.message), token.calls + restId.calls)
      else
        var patch := PatchFlagRestRun(env, restId.result.value, token.result.value, dates);
        Run(patch.result, token.calls + restId.calls + patch.calls)
  }

  function PatchFlagEwsRun(env: Env, ewsId: string, dates: FlagDates): (r: Run<()>)
    ensures r.calls == [MakeEwsRequestAsync(ewsId, dates.startDate, dates.dueDate)]
    ensures r.result.Ok? <==> env.ews.Succeeded?
    ensures env.ews == Failed(None) ==> r.result == Err("EWS UpdateItem failed")
  {
    Run(FromAsync(env.ews, "EWS UpdateItem failed"),
        [MakeEwsRequestAsync(ewsId, dates.startDate, dates.dueDate)])
  }

  function SendMessageRun(env: Env): (r: Run<()>)
    ensures r.calls == if env.sendAvailable then [LookupSendAsync, SendAsync] else [LookupSendAsync]
    ensures r.result.Ok? <==> env.sendAvailable && env.send.Succeeded?
    ensures !env.sendAvailable ==> r.result == Err(SendUnavailable)
  {
    if env.sendAvailable then
      Run(FromAsync(env.send, "sendAsync failed"), [LookupSendAsync, SendAsync])
    else
      Run(Err(SendUnavailable), [LookupSendAsync])
  }

  /** The flag update: the REST path, and on any failure of it one EWS update. */
  function FlagUpdateRun(env: Env, ewsId: string, dates: FlagDates): (r: Run<()>)
    ensures r.result.Ok? <==> RestPathSucceeds(env) || env.ews.Succeeded?
    ensures |r.calls| >= 1 && r.calls[0] == GetCallbackTokenAsync(true)
  {
    var rest := RestPathRun(env, ewsId, dates);
    if rest.result.Ok? then rest
    else
      var ews := PatchFlagEwsRun(env, ewsId, dates);
      Run(ews.result, rest.calls + ews.calls)
  }

  function SetFlagAndSendRun(env: Env, dates: FlagDates): (r: Run<()>)
    ensures |r.calls| >= 1 && r.calls[0] == SaveAsync
    ensures r.result.Ok? <==> FlagUpdated(env) && env.sendAvailable && env.send.Succeeded?
    ensures env.save.Failed? ==> r.calls == [SaveAsync]
  {
    var save := SaveDraftRun(env);
    if save.result.Err? then Run(Err(save.result.message), save.calls)
    else
      var flag := FlagUpdateRun(env, save.result.value, dates);
      if flag.result.Err? then Run(flag.result, save.calls + flag.calls)
      else
        var send := SendMessageRun(env);
        Run(send.result, save.calls + flag.calls + send.calls)
  }

  function SendWithoutFlagRun(env: Env): (r: Run<()>)
    ensures |r.calls| >= 1 && r.calls[0] == LookupSendAsync && SaveAsync !in r.calls
    ensures r.result.Ok? <==> env.sendAvailable && env.send.Succeeded?
  {
    SendMessageRun(env)
  }

  // ---- The steps as methods over the host ----

  method SaveDraft(host: Host) returns (r: Result<string>)
    modifies host
    ensures r == SaveDraftRun(host.env).result
    ensures host.trace == old(host.trace) + SaveDraftRun(host.env).calls
  {
    var res := host.SaveAsync();
    match res
    case Succeeded(id) => r := Ok(id);
    case Failed(m) => r := Err(MessageOr(m, "saveAsync failed"));
  }

  method GetRestToken(host: Host) returns (r: Result<string>)
    modifies host
    ensures r == RestTokenRun(host.env).result
    ensures host.trace == old(host.trace) + RestTokenRun(host.env).calls
  {
    var res := host.GetCallbackTokenAsync(true);
    match res
    case Succeeded(token) => r := Ok(token);
    case Failed(m) => r := Err(MessageOr(m, "getCallbackTokenAsync failed"));
  }

  method ToRestId(host: Host, ewsId: string) returns (r: Result<string>)
    modifies host
    ensures r == ToRestIdRun(host.env, ewsId).result
    ensures host.trace == old(host.trace) + ToRestIdRun(host.env, ewsId).calls
  {
    r := host.ConvertToRestId(ewsId);
  }

  method PatchFlagRest(host: Host, restId: string, token: string, dates: FlagDates) returns (r: Result<()>)
    modifies host
    ensures r == PatchFlagRestRun(host.env, restId, token, dates).result
    ensures host.trace == old(host.trace) + PatchFlagRestRun(host.env, restId, token, dates).calls
  {
    var body := FlagBody("Flagged",
      DateTimeTimeZone(dates.startDate, "UTC"),
      DateTimeTimeZone(dates.dueDate, "UTC"));
    var response := host.Fetch(PatchRequest(restId, "Bearer " + token, "application/json", body));
    match response
    case NetworkError(m) =>
      r := Err(m);
    case Response(status, text) =>
      if !response.IsOk() {
        r := Err("REST PATCH failed (" + Decimal.IntToString(status) + "): " + text);
      } else {
        r := Ok(());
      }
  }

  method PatchFlagEws(host: Host, ewsId: string, dates: FlagDates) returns (r: Result<()>)
    modifies host
    ensures r == PatchFlagEwsRun(host.env, ewsId, dates).result
    ensures host.trace == old(host.trace) + PatchFlagEwsRun(host.env, ewsId, dates).calls
  {
    var res := host.MakeEwsRequestAsync(ewsId, dates.startDate, dates.dueDate);
    match res
    case Succeeded(v) => r := Ok(v);
    case Failed(m) => r := Err(MessageOr(m, "EWS UpdateItem failed"));
  }

  method SendMessage(host: Host) returns (r: Result<()>)
    modifies host
    ensures r == SendMessageRun(host.env).result
    ensures host.trace == old(host.trace) + SendMessageRun(host.env).calls
  {
    var available := host.LookupSendAsync();
    if available {
      var res := host.SendAsync();
      match res
      case Succeeded(v) => r := Ok(v);
      case Failed(m) => r := Err(MessageOr(m, "sendAsync failed"));
    } else {
      r := Err(SendUnavailable);
    }
  }

  /** The try-block of `setFlagAndSend`; it reports whether the REST flag update went through. */
  method TryRestPath(host: Host, ewsId: string, dates: FlagDates) returns (done: bool)
    modifies host
    ensures done == RestPathRun(host.env, ewsId, dates).result.Ok?
    ensures host.trace == old(host.trace) + RestPathRun(host.env, ewsId, dates).calls
  {
    done := false;
    var token := GetRestToken(host);
    if token.Ok? {
      var restId := ToRestId(host, ewsId);
      if restId.Ok? {
        var patched := PatchFlagRest(host, restId.value, token.value, dates);
        done := patched.Ok?;
      }
    }
  }

  /** The try-block and, on any failure in it, one EWS update. */
  method UpdateFlag(host: Host, ewsId: string, dates: FlagDates) returns (r: Result<()>)
    modifies host
    ensures r == FlagUpdateRun(host.env, ewsId, dates).result
    ensures host.trace == old(host.trace) + FlagUpdateRun(host.env, ewsId, dates).calls
  {
    var done := TryRestPath(host, ewsId, dates);
    if done {
      r := Ok(());
    } else {
      r := PatchFlagEws(host, ewsId, dates);
    }
  }

  method SetFlagAndSend(host: Host, dates: FlagDates) returns (r: Result<()>)
    modifies host
    ensures r == SetFlagAndSendRun(host.env, dates).result
    ensures host.trace == old(host.trace) + SetFlagAndSendRun(host.env, dates).calls
  {
    var saved := SaveDraft(host);
    if saved.Err? {
      return Err(saved.message);
    }
    var flagged := UpdateFlag(host, saved.value, dates);
    if flagged.Err? {
      return Err(flagged.message);
    }
    r := SendMessage(host);
  }

  method SendWithoutFlag(host: Host) returns (r: Result<()>)
    modifies host
    ensures r == SendWithoutFlagRun(host.env).result
    ensures host.trace == old(host.trace) + SendWithoutFlagRun(host.env).calls
  {
    r := SendMessage(host);
  }

  // ---- Properties of the workflow ----

  /** The place of each kind of host call in the workflow's fixed order. */
  function Rank(c: Call): (k: nat)
    ensures k <= 6
  {
    match c
    case SaveAsync => 0
    case GetCallbackTokenAsync(_) => 1
    case ConvertToRestId(_) => 2
    case Fetch(_) => 3
    case MakeEwsRequestAsync(_, _, _) => 4
    case LookupSendAsync => 5
    case SendAsync => 6
  }

  const SaveRank := 0
  const TokenRank := 1
  const ConvertRank := 2
  const FetchRank := 3
  const EwsRank := 4
  const LookupRank := 5
  const SendRank := 6

  /** Each call is of a strictly later kind than every call before it. */
  predicate InOrder(calls: seq<Call>) {
    forall i, j :: 0 <= i < j < |calls| ==> Rank(calls[i]) < Rank(calls[j])
  }

  /** How many calls of the kind `rank` a trace holds. */
  function Occurrences(calls: seq<Call>, rank: nat): (n: nat)
    ensures n <= |calls|
  {
    if calls == [] then 0
    else (if Rank(calls[0]) == rank then 1 else 0) + Occurrences(calls[1..], rank)
  }

  lemma {:induction false} OccurrencesAbsent(calls: seq<Call>, rank: nat)
    requires forall i :: 0 <= i < |calls| ==> Rank(calls[i]) != rank
    ensures Occurrences(calls, rank) == 0
  {
    if calls != [] {
      assert Rank(calls[0]) != rank;
      OccurrencesAbsent(calls[1..], rank);
    }
  }

  lemma {:induction false} InOrderAtMostOnce(calls: seq<Call>, rank: nat)
    requires InOrder(calls)
    ensures Occurrences(calls, rank) <= 1
  {
    if calls != [] {
      var tail := calls[1..];
      assert forall i :: 0 <= i < |tail| ==> tail[i] == calls[i + 1];
      if Rank(calls[0]) == rank {
        OccurrencesAbsent(tail, rank);
      } else {
        InOrderAtMostOnce(tail, rank);
      }
    }
  }

  lemma InOrderAppend(a: seq<Call>, b: seq<Call>)
    requires InOrder(a) && InOrder(b)
    requires forall i, j :: 0 <= i < |a| && 0 <= j < |b| ==> Rank(a[i]) < Rank(b[j])
    ensures InOrder(a + b)
  {
    var ab := a + b;
    forall i, j | 0 <= i < j < |ab| ensures Rank(ab[i]) < Rank(ab[j]) {
      if j < |a| {
      } else if i >= |a| {
        assert ab[i] == b[i - |a|] && ab[j] == b[j - |a|];
      } else {
        assert ab[i] == a[i] && ab[j] == b[j - |a|];
      }
    }
  }

  /**
   * The try-block succeeds exactly when all three of its steps do; it always
   * asks for a token, converts the id at most once, PATCHes at most once, and
   * touches nothing outside token, conversion and PATCH.
   */
  lemma RestPathShape(env: Env, ewsId: string, dates: FlagDates)
    ensures var rest := RestPathRun(env, ewsId, dates);
      && (rest.result.Ok? <==> RestPathSucceeds(env))
      && 1 <= |rest.calls| <= 3
      && InOrder(rest.calls)
      && rest.calls[0] == GetCallbackTokenAsync(true)
      && (forall i :: 0 <= i < |rest.calls| ==> TokenRank <= Rank(rest.calls[i]) <= FetchRank)
      && (RestPathSucceeds(env) ==>
            rest.calls == [GetCallbackTokenAsync(true), ConvertToRestId(ewsId),
                           Fetch(PatchRequestFor(env.restId.value, env.token.value, dates))])
  {
  }

  /** The flag update: the REST path, then the EWS update exactly when the REST path failed. */
  lemma FlagUpdateShape(env: Env, ewsId: string, dates: FlagDates)
    ensures var rest, flag := RestPathRun(env, ewsId, dates), FlagUpdateRun(env, ewsId, dates);
      && (flag.result.Ok? <==> RestPathSucceeds(env) || env.ews.Succeeded?)
      && (RestPathSucceeds(env) ==> flag == rest)
      && (!RestPathSucceeds(env) ==>
            && flag.calls == rest.calls + [MakeEwsRequestAsync(ewsId, dates.startDate, dates.dueDate)]
            && flag.result == PatchFlagEwsRun(env, ewsId, dates).result)
      && InOrder(flag.calls)
      && (forall i :: 0 <= i < |flag.calls| ==> TokenRank <= Rank(flag.calls[i]) <= EwsRank)
  {
    RestPathShape(env, ewsId, dates);
    var rest := RestPathRun(env, ewsId, dates);
    if !RestPathSucceeds(env) {
      InOrderAppend(rest.calls, PatchFlagEwsRun(env, ewsId, dates).calls);
    }
  }

  /** The workflow: save; if it worked, the flag update; if that worked, the send. */
  lemma WorkflowShape(env: Env, dates: FlagDates)
    ensures var run := SetFlagAndSendRun(env, dates);
      && (env.save.Failed? ==> run == Run(Err(MessageOr(env.save.message, "saveAsync failed")), [SaveAsync]))
      && (env.save.Succeeded? ==>
            var flag := FlagUpdateRun(env, env.save.value, dates);
            && (flag.result.Ok? <==> FlagUpdated(env))
            && (!FlagUpdated(env) ==> run == Run(flag.result, [SaveAsync] + flag.calls))
            && (FlagUpdated(env) ==> run == Run(SendMessageRun(env).result, [SaveAsync] + flag.calls + SendMessageRun(env).calls)))
  {
    if env.save.Succeeded? {
      FlagUpdateShape(env, env.save.value, dates);
    }
  }

  /** If saving the draft fails, its error is the outcome and nothing else is called. */
  lemma SaveFailureStops(env: Env, dates: FlagDates)
    requires env.save.Failed?
    ensures SetFlagAndSendRun(env, dates) ==
      Run(Err(MessageOr(env.save.message, "saveAsync failed")), [SaveAsync])
  {
  }

  /** When the REST path succeeds, EWS is never called and the send follows the PATCH. */
  lemma RestSuccessSkipsEws(env: Env, dates: FlagDates)
    requires env.save.Succeeded? && RestPathSucceeds(env)
    ensures var run := SetFlagAndSendRun(env, dates);
      && run.calls ==
           [SaveAsync, GetCallbackTokenAsync(true), ConvertToRestId(env.save.value),
            Fetch(PatchRequestFor(env.restId.value, env.token.value, dates))]
           + SendMessageRun(env).calls
      && Occurrences(run.calls, EwsRank) == 0
      && run.result == SendMessageRun(env).result
  {
    RestPathShape(env, env.save.value, dates);
    WorkflowShape(env, dates);
    var run := SetFlagAndSendRun(env, dates);
    assert forall i :: 0 <= i < |run.calls| ==> Rank(run.calls[i]) != EwsRank;
    OccurrencesAbsent(run.calls, EwsRank);
  }

  /**
   * When any of token, id conversion or PATCH fails, EWS is called exactly
   * once, with the saved (EWS) id and the same dates, and REST is not retried.
   */
  lemma {:induction false} FallbackExactlyOnce(env: Env, dates: FlagDates)
    requires env.save.Succeeded? && !RestPathSucceeds(env)
    ensures var run := SetFlagAndSendRun(env, dates);
      && Occurrences(run.calls, EwsRank) == 1
      && MakeEwsRequestAsync(env.save.value, dates.startDate, dates.dueDate) in run.calls
      && Occurrences(run.calls, TokenRank) == 1
      && Occurrences(run.calls, FetchRank) <= 1
  {
    var ewsId := env.save.value;
    var flag := FlagUpdateRun(env, ewsId, dates);
    var run := SetFlagAndSendRun(env, dates);
    WorkflowShape(env, dates);
    FlagUpdateShape(env, ewsId, dates);
    RestPathShape(env, ewsId, dates);
    WorkflowCallsInOrder(env, dates);
    var ews := MakeEwsRequestAsync(ewsId, dates.startDate, dates.dueDate);
    assert run.calls[1 + |flag.calls| - 1] == ews;
    assert run.calls[1] == GetCallbackTokenAsync(true);
    InOrderAtMostOnce(run.calls, EwsRank);
    InOrderAtMostOnce(run.calls, TokenRank);
    InOrderAtMostOnce(run.calls, FetchRank);
    OccurrencesPresent(run.calls, 1 + |flag.calls| - 1, EwsRank);
    OccurrencesPresent(run.calls, 1, TokenRank);
  }

  lemma {:induction false} OccurrencesPresent(calls: seq<Call>, i: nat, rank: nat)
    requires i < |calls| && Rank(calls[i]) == rank
    ensures Occurrences(calls, rank) >= 1
  {
    if i > 0 {
      assert calls[1..][i - 1] == calls[i];
      OccurrencesPresent(calls[1..], i - 1, rank);
    }
  }

  /** When REST and EWS both fail, the EWS error is the outcome and no send is attempted. */
  lemma BothPathsFailNoSend(env: Env, dates: FlagDates)
    requires env.save.Succeeded? && !RestPathSucceeds(env) && env.ews.Failed?
    ensures var run := SetFlagAndSendRun(env, dates);
      && run.result == Err(MessageOr(env.ews.message, "EWS UpdateItem failed"))
      && Occurrences(run.calls, LookupRank) == 0
      && Occurrences(run.calls, SendRank) == 0
  {
    WorkflowShape(env, dates);
    FlagUpdateShape(env, env.save.value, dates);
    var run := SetFlagAndSendRun(env, dates);
    assert forall i :: 0 <= i < |run.calls| ==> Rank(run.calls[i]) <= EwsRank;
    OccurrencesAbsent(run.calls, LookupRank);
    OccurrencesAbsent(run.calls, SendRank);
  }

  /**
   * `sendMessage` is entered exactly when the flag was set on one of the two
   * paths, at most once, and then its outcome is the workflow's outcome.
   */
  lemma SendOnlyAfterFlagUpdate(env: Env, dates: FlagDates)
    ensures var run := SetFlagAndSendRun(env, dates);
      && Occurrences(run.calls, LookupRank) == (if FlagUpdated(env) then 1 else 0)
      && (FlagUpdated(env) ==> run.result == SendMessageRun(env).result)
      && (!FlagUpdated(env) ==> run.result.Err? && Occurrences(run.calls, SendRank) == 0)
  {
    var run := SetFlagAndSendRun(env, dates);
    WorkflowShape(env, dates);
    if env.save.Succeeded? {
      FlagUpdateShape(env, env.save.value, dates);
    }
    if FlagUpdated(env) {
      WorkflowCallsInOrder(env, dates);
      InOrderAtMostOnce(run.calls, LookupRank);
      var k := |run.calls| - |SendMessageRun(env).calls|;
      assert run.calls[k] == LookupSendAsync;
      OccurrencesPresent(run.calls, k, LookupRank);
    } else {
      assert forall i :: 0 <= i < |run.calls| ==> Rank(run.calls[i]) <= EwsRank;
      OccurrencesAbsent(run.calls, LookupRank);
      OccurrencesAbsent(run.calls, SendRank);
    }
  }

  /**
   * The host calls of `setFlagAndSend` follow the order save, token, id
   * conversion, PATCH, EWS, send lookup, send, with no kind repeated.
   */
  lemma WorkflowCallsInOrder(env: Env, dates: FlagDates)
    ensures InOrder(SetFlagAndSendRun(env, dates).calls)
  {
    WorkflowShape(env, dates);
    if env.save.Succeeded? {
      var flag := FlagUpdateRun(env, env.save.value, dates);
      FlagUpdateShape(env, env.save.value, dates);
      InOrderAppend([SaveAsync], flag.calls);
      if FlagUpdated(env) {
        InOrderAppend([SaveAsync] + flag.calls, SendMessageRun(env).calls);
      }
    }
  }

  /** The draft is saved exactly once, and the EWS id is converted at most once. */
  lemma {:induction false} SaveOnceConvertAtMostOnce(env: Env, dates: FlagDates)
    ensures var run := SetFlagAndSendRun(env, dates);
      && Occurrences(run.calls, SaveRank) == 1
      && Occurrences(run.calls, ConvertRank) <= 1
  {
    var run := SetFlagAndSendRun(env, dates);
    WorkflowCallsInOrder(env, dates);
    InOrderAtMostOnce(run.calls, SaveRank);
    InOrderAtMostOnce(run.calls, ConvertRank);
    OccurrencesPresent(run.calls, 0, SaveRank);
  }

  /** Sending without a reminder touches only the send lookup and the send. */
  lemma SendWithoutFlagOnlySends(env: Env)
    ensures var run := SendWithoutFlagRun(env);
      && run == SendMessageRun(env)
      && InOrder(run.calls)
      && Occurrences(run.calls, LookupRank) == 1
      && forall i :: 0 <= i < |run.calls| ==> Rank(run.calls[i]) >= LookupRank
  {
  }

  /**
   * `sendMessage` rejects with SEND_UNAVAILABLE when `sendAsync` is missing,
   * and otherwise only when the host's own failure message is that very text;
   * `sendAsync` is called once when present and never when missing.
   */
  lemma SendUnavailableIff(env: Env)
    ensures var run := SendMessageRun(env);
      && (run.result == Err(SendUnavailable) <==>
            !env.sendAvailable || env.send == Failed(Some(SendUnavailable)))
      && (run.result.Ok? <==> env.sendAvailable && env.send.Succeeded?)
      && (env.sendAvailable && env.send == Failed(None) ==> run.result == Err("sendAsync failed"))
      && Occurrences(run.calls, SendRank) == (if env.sendAvailable then 1 else 0)
  {
    var run := SendMessageRun(env);
    if env.sendAvailable {
      assert run.calls[1..] == [SendAsync];
    }
  }

  /** If the flag was set and the host cannot send, the workflow reports SEND_UNAVAILABLE. */
  lemma FlagSetButSendUnavailable(env: Env, dates: FlagDates)
    requires FlagUpdated(env) && !env.sendAvailable
    ensures SetFlagAndSendRun(env, dates).result == Err(SendUnavailable)
  {
    RestPathShape(env, env.save.value, dates);
  }

  /** Host failures without a message map to fixed texts. */
  lemma DefaultMessages(env: Env, dates: FlagDates)
    ensures env.save == Failed(None) ==>
      SetFlagAndSendRun(env, dates).result == Err("saveAsync failed")
    ensures env.token == Failed(None) ==>
      RestTokenRun(env).result == Err("getCallbackTokenAsync failed")
    ensures env.save.Succeeded? && !RestPathSucceeds(env) && env.ews == Failed(None) ==>
      SetFlagAndSendRun(env, dates).result == Err("EWS UpdateItem failed")
  {
    if env.save.Succeeded? && !RestPathSucceeds(env) {
      RestPathShape(env, env.save.value, dates);
    }
  }

  /**
   * The PATCH always sends FlagStatus "Flagged" with both dates unchanged in
   * UTC under a bearer token, and fails exactly when the response is not ok.
   */
  lemma PatchFlagRestRequest(env: Env, restId: string, token: string, dates: FlagDates)
    ensures var run := PatchFlagRestRun(env, restId, token, dates);
      && |run.calls| == 1 && run.calls[0].Fetch?
      && var req := run.calls[0].request;
      && req.restId == restId
      && req.authorization == "Bearer " + token
      && req.body.flagStatus == "Flagged"
      && req.body.startDateTime == DateTimeTimeZone(dates.startDate, "UTC")
      && req.body.dueDateTime == DateTimeTimeZone(dates.dueDate, "UTC")
      && (run.result.Ok? <==> env.response.IsOk())
      && (env.response.Response? && !env.response.IsOk() ==>
            run.result == Err(PatchFailureMessage(env.response.status, env.response.text)))
  {
  }

  /** The failure text of a PATCH carries the status code, readable back, and the body text. */
  lemma PatchFailureMessageReadsBack(status: int, text: string)
    ensures var m := PatchFailureMessage(status, text);
      var code := Decimal.IntToString(status);
      && m[..19] == "REST PATCH failed ("
      && Decimal.ParseInt(m[19..19 + |code|]) == Some(status)
      && m[19 + |code|..22 + |code|] == "): "
      && m[22 + |code|..] == text
  {
    var m := PatchFailureMessage(status, text);
    var code := Decimal.IntToString(status);
    assert m == "REST PATCH failed (" + code + "): " + text;
    assert m[19..19 + |code|] == code;
    Decimal.ParseIntToString(status);
  }
}
