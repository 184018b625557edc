/**
 * The mail host (`Office.context.mailbox` and its current item) as a test
 * double: every primitive the flag service uses answers with an outcome fixed
 * in advance, and every call is appended to a trace so that the order and
 * number of calls can be stated.
 */
module Mailbox {
  import opened Wrappers

  /** An Office `AsyncResult`: success with a value, or failure whose error may carry a message. */
  datatype AsyncResult<T> = Succeeded(value: T) | Failed(message: Option<string>)

  /** What `fetch` settles with: a response, or a rejection such as a network error. */
  datatype FetchOutcome = Response(status: int, text: string) | NetworkError(message: string)
  {
    /** `response.ok`: the status is in the range 200-299. */
    predicate IsOk() {
      Response? && 200 <= status <= 299
    }
  }

  datatype DateTimeTimeZone = DateTimeTimeZone(dateTime: string, timeZone: string)

  /** The JSON body `{ Flag: { FlagStatus, StartDateTime, DueDateTime } }`. */
  datatype FlagBody = FlagBody(flagStatus: string, startDateTime: DateTimeTimeZone, dueDateTime: DateTimeTimeZone)

  /** The REST PATCH as issued: target message id, headers and body. */
  datatype PatchRequest = PatchRequest(
    restId: string,
    authorization: string,
    contentType: string,
    body: FlagBody)

  /** One interaction with the host. `LookupSendAsync` is the `typeof item.sendAsync` probe. */
  datatype Call =
    | SaveAsync
    | GetCallbackTokenAsync(isRest: bool)
    | ConvertToRestId(ewsId: string)
    | Fetch(request: PatchRequest)
    | MakeEwsRequestAsync(ewsId: string, startDate: string, dueDate: string)
    | LookupSendAsync
    | SendAsync

  /** The outcomes the host will give. `restId` is `Err` when `convertToRestId` throws. */
  datatype Env = Env(
    save: AsyncResult<string>,
    token: AsyncResult<string>,
    restId: Result<string>,
    response: FetchOutcome,
    ews: AsyncResult<()>,
    sendAvailable: bool,
    send: AsyncResult<()>)

  class Host {
    const env: Env
    var trace: seq<Call>

    constructor (env: Env)
      ensures this.env == env && trace == []
    {
      this.env := env;
      trace := [];
    }

    /** `item.saveAsync`. */
    method SaveAsync() returns (r: AsyncResult<string>)
      modifies this
      ensures trace == old(trace) + [Call.SaveAsync] && r == env.save
    {
      trace := trace + [Call.SaveAsync];
      r := env.save;
    }

    /** `mailbox.getCallbackTokenAsync({ isRest })`. */
    method GetCallbackTokenAsync(isRest: bool) returns (r: AsyncResult<string>)
      modifies this
      ensures trace == old(trace) + [Call.GetCallbackTokenAsync(isRest)] && r == env.token
    {
      trace := trace + [Call.GetCallbackTokenAsync(isRest)];
      r := env.token;
    }

    /** `mailbox.convertToRestId(ewsId, v2_0)`; an `Err` stands for a thrown exception. */
    method ConvertToRestId(ewsId: string) returns (r: Result<string>)
      modifies this
      ensures trace == old(trace) + [Call.ConvertToRestId(ewsId)] && r == env.restId
    {
      trace := trace + [Call.ConvertToRestId(ewsId)];
      r := env.restId;
    }

    /** `fetch(url, { method: "PATCH", ... })`. */
    method Fetch(request: PatchRequest) returns (r: FetchOutcome)
      modifies this
      ensures trace == old(trace) + [Call.Fetch(request)] && r == env.response
    {
      trace := trace + [Call.Fetch(request)];
      r := env.response;
    }

    /** `mailbox.makeEwsRequestAsync` with an UpdateItem carrying the id and both dates. */
    method MakeEwsRequestAsync(ewsId: string, startDate: string, dueDate: string) returns (r: AsyncResult<()>)
      modifies this
      ensures trace == old(trace) + [Call.MakeEwsRequestAsync(ewsId, startDate, dueDate)] && r == env.ews
    {
      trace := trace + [Call.MakeEwsRequestAsync(ewsId, startDate, dueDate)];
      r := env.ews;
    }

    /** `typeof item.sendAsync === "function"`. */
    method LookupSendAsync() returns (available: bool)
      modifies this
      ensures trace == old(trace) + [Call.LookupSendAsync] && available == env.sendAvailable
    {
      trace := trace + [Call.LookupSendAsync];
      available := env.sendAvailable;
    }

    /** `item.sendAsync`, which only exists on hosts that provide it. */
    method SendAsync() returns (r: AsyncResult<()>)
      requires env.sendAvailable
      modifies this
      ensures trace == old(trace) + [Call.SendAsync] && r == env.send
    {
      trace := trace + [Call.SendAsync];
      r := env.send;
    }
  }
}
