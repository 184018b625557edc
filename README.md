# FollowupB4Send: verified model of the reminder form and the flag-and-send workflow

FollowupB4Send is a mail add-in. It stops an outgoing message and offers a small form. The user picks a follow-up date range ("today", "tomorrow", "this week", "next week" or a custom day). The add-in then saves the draft and sets a follow-up flag on it, first by a REST PATCH and, if that fails in any way, by one EWS `UpdateItem` request. Then it sends the message.

This project models the two pieces of that add-in with exact logic:

- **The reminder form** (`src/taskpane/components/ReminderForm.tsx`), in module `ReminderForm`:
  - the quick-pick date arithmetic `getQuickPickDate`;
  - the `YYYY-MM-DD` text of the date input, `toInputDate`;
  - the status (idle, loading, success, error) that the two buttons drive.

  A date is a day number: day 0 is 1970-01-01, a Thursday. `Calendar.Weekday` plays `getDay` (0 is Sunday, 6 is Saturday). A mutable `Calendar.Date` object steps in place. Its `AddDays(k)` stands for `setDate(getDate() + k)`, which moves the day number by `k` across month ends. "Now" is passed in as a parameter.
- **The flag service** (`src/taskpane/services/flagService.ts`), in module `FlagService`.
  - The host is a test double, `Mailbox.Host`. Each host primitive answers with an outcome fixed in advance in an `Env`, and each call is appended to `trace`.
  - Each step of the service has two forms. A pure `…Run` function gives the step's result (`Ok`, or `Err(message)`) and the host calls it makes, in order. A method over the host is proved to return that result and to append exactly those calls.
  - Lemmas about the runs state the workflow's promises: the order of the steps, the one EWS fallback, what is never called, and the `SEND_UNAVAILABLE` signal.

Supporting modules:
- `Decimal`: JavaScript's `String(n)`, `padStart`, and a reader for the same text, used for round trips.
- `Calendar`: day numbers, weekdays and the `Date` object.
- `Mailbox`: the host double.
- `Wrappers`: `Option` and `Result`.

Two points of the code's behaviour that are easy to misread:
- A token or id-conversion failure never reaches the caller. Both `getRestToken` and `toRestId` run inside the `try` block (`flagService.ts:145-151`), so either one triggers the EWS fallback, like a failed PATCH, and its message is dropped.
- "Send unavailable" is an ordinary `Error` whose message is `"SEND_UNAVAILABLE"`. `FlagService.SendUnavailableIff` states the exact condition: `sendMessage` rejects with that text when `sendAsync` is missing, and also when the host's own failure message is that text. The UI turns every error with that message into a success, including a failed save whose message happened to be that text.

`toInputDate` follows the extended calendar-date format of ISO 8601:2004 (section 4.1.2.2) only for years 1000 to 9999. `String(year)` is not padded, so year 999 gives `999-01-01`, and a negative year starts with `-`. The model keeps that behaviour. `InputDateLength` is stated for four-digit years.

## Model

| member | source | states |
|---|---|---|
| `Calendar.Weekday` | src/taskpane/components/ReminderForm.tsx:55 | `getDay` of a day number is in 0..6, and day 0 (1970-01-01) is a Thursday |
| `Calendar.WeekdayForward` | src/taskpane/components/ReminderForm.tsx:55-57 | moving k days forward within the same week adds k to the weekday |
| `Calendar.WeekdayWrap` | src/taskpane/components/ReminderForm.tsx:63-65 | moving forward past Saturday wraps the weekday back by 7 |
| `Calendar.Date.constructor` | src/taskpane/components/ReminderForm.tsx:43 | a date object on a given day |
| `Calendar.Date.Copy` | src/taskpane/components/ReminderForm.tsx:48 | `new Date(d)` is a separate object on the same day |
| `Calendar.Date.AddDays` | src/taskpane/components/ReminderForm.tsx:49 | `setDate(getDate() + k)` moves the object's day by k, in place |
| `ReminderForm.QuickPickRange` | src/taskpane/components/ReminderForm.tsx:41-73 | every pick gives a start no later than its due, and a start 0 to 7 days after today |
| `ReminderForm.GetQuickPickDate` | src/taskpane/components/ReminderForm.tsx:41-73 | returns new date objects on exactly the days of `QuickPickRange`; today, tomorrow and the default branch return one object as both start and due |
| `ReminderForm.TodayAndTomorrow` | src/taskpane/components/ReminderForm.tsx:45-51 | today gives start = due = today; tomorrow gives start = due = today + 1 |
| `ReminderForm.ThisWeekDue` | src/taskpane/components/ReminderForm.tsx:52-59 | starts today; Sunday to Friday it is due on the first Friday on or after today; on Saturday it is due today; it is never due before its start |
| `ReminderForm.NextWeekMondayToFriday` | src/taskpane/components/ReminderForm.tsx:60-69 | starts on the first Monday after today (1 to 7 days ahead, including from Sunday and from Monday); due is 4 days later, a Friday |
| `ReminderForm.JuneSecondWeek2024` | src/taskpane/components/ReminderForm.tsx:52-69 | from Monday 2024-06-10: this week ends 06-14, next week is 06-17 to 06-21; from Friday 06-14: this week is 06-14 only, next week is 06-17 to 06-21 |
| `ReminderForm.ToInputDate` | src/taskpane/components/ReminderForm.tsx:79-84 | the text is `String(year)`, `-`, the tens and units digits of month index + 1, `-`, the tens and units digits of the day, so it is 6 characters longer than the year text |
| `ReminderForm.InputDateLength` | src/taskpane/components/ReminderForm.tsx:79-84 | for a year from 1000 to 9999 the text is 10 characters long |
| `ReminderForm.InputDateFields` | src/taskpane/components/ReminderForm.tsx:81-83 | the month field is one of "01".."12" and the day field one of "01".."31", each between dashes |
| `ReminderForm.InputDateRoundTrip` | src/taskpane/components/ReminderForm.tsx:79-84 | reading the text back gives the same year, month and day, for every year |
| `ReminderForm.AsCompletion` | src/taskpane/components/ReminderForm.tsx:111-118 | a workflow that resolves completes normally; one that rejects reaches the `catch` carrying its error message |
| `ReminderForm.ChosenRange` | src/taskpane/components/ReminderForm.tsx:100-108 | a custom pick flags the custom day as both start and due; any other pick flags its quick-pick range, starting 0 to 7 days after today; start is never after due |
| `ReminderForm.Settle` | src/taskpane/components/ReminderForm.tsx:116-125 | success exactly when the call resolved or rejected with `SEND_UNAVAILABLE` (that case with the manual-send message); otherwise an error carrying the rejection's message, or "Unknown error" when it has none; never loading |
| `ReminderForm.SetReminderOutcome` | src/taskpane/components/ReminderForm.tsx:110-126 | flag set and no `sendAsync` shows "Reminder set! Please click Send…"; a clean run shows the sent message; any error shown is the workflow's own error message |
| `ReminderForm.Form.constructor` | src/taskpane/components/ReminderForm.tsx:88-92 | nothing selected, the custom date is today, the status is idle |
| `ReminderForm.Form.Select` | src/taskpane/components/ReminderForm.tsx:158-162 | a quick-pick button, usable only when not loading, selects that pick |
| `ReminderForm.Form.SetCustomDay` | src/taskpane/components/ReminderForm.tsx:174-181 | the custom date input, shown only while "custom" is selected and usable only when not loading, sets the custom day |
| `ReminderForm.Form.SetStatus` | src/taskpane/components/ReminderForm.tsx:90-92 | sets the status and records it in the status history |
| `ReminderForm.Form.HandleSetReminder` | src/taskpane/components/ReminderForm.tsx:94-127 | with no pick, nothing changes and no host call is made; otherwise the status goes to loading, then `setFlagAndSend` runs on the chosen days (a custom pick uses the custom day as both start and due), and the status settles per `Settle` |
| `ReminderForm.Form.HandleSendWithout` | src/taskpane/components/ReminderForm.tsx:129-144 | the status goes to loading, only `sendWithoutFlag` runs, and the status settles per `Settle` with the without-reminder messages |
| `Decimal.NatToString` | src/taskpane/components/ReminderForm.tsx:81-82 | `String(n)` is a non-empty run of digits with no leading zero |
| `Decimal.IntToString` | src/taskpane/components/ReminderForm.tsx:80 | `String(i)` starts with `-` exactly when i is negative |
| `Decimal.PadStart` | src/taskpane/components/ReminderForm.tsx:81-82 | `padStart` gives at least the width, ends with the original text, and has only fill characters before it |
| `Decimal.ParseNatToString` | src/taskpane/components/ReminderForm.tsx:81-82 | the decimal text of n reads back as n |
| `Decimal.ParseIntToString` | src/taskpane/components/ReminderForm.tsx:80 | the decimal text of any integer reads back as that integer |
| `Decimal.NatToStringLength` | src/taskpane/components/ReminderForm.tsx:80 | a number from 10^k up to 10^(k+1) - 1 has k + 1 digits |
| `Decimal.TwoDigits` | src/taskpane/components/ReminderForm.tsx:81-82 | a number from 1 to 99 padded to 2 characters is its tens digit then its units digit, and reads back as itself |
| `Mailbox.Host.SaveAsync` | src/taskpane/services/flagService.ts:14 | records the save call and answers with the chosen outcome |
| `Mailbox.Host.GetCallbackTokenAsync` | src/taskpane/services/flagService.ts:27-28 | records the token request and answers with the chosen outcome |
| `Mailbox.Host.ConvertToRestId` | src/taskpane/services/flagService.ts:42-45 | records the id conversion and answers with the chosen id or failure |
| `Mailbox.Host.Fetch` | src/taskpane/services/flagService.ts:76-83 | records the PATCH request and answers with the chosen response |
| `Mailbox.Host.MakeEwsRequestAsync` | src/taskpane/services/flagService.ts:126 | records the EWS request with its id and dates, and answers with the chosen outcome |
| `Mailbox.Host.LookupSendAsync` | src/taskpane/services/flagService.ts:161 | records the `typeof sendAsync` probe and answers whether the host has `sendAsync` |
| `Mailbox.Host.SendAsync` | src/taskpane/services/flagService.ts:162 | callable only when the host has `sendAsync`; records the send and answers with the chosen outcome |
| `FlagService.MessageOr` | src/taskpane/services/flagService.ts:18 | `message ?? fallback`: the message when there is one, otherwise the fallback |
| `FlagService.FromAsync` | src/taskpane/services/flagService.ts:15-19 | success passes the value through; a failure gives its message, or the step's default text when there is none |
| `FlagService.SaveDraftRun` | src/taskpane/services/flagService.ts:12-22 | one save call; succeeds exactly when the host's save does; a failure without a message gives "saveAsync failed" |
| `FlagService.RestTokenRun` | src/taskpane/services/flagService.ts:25-38 | one REST token request; succeeds exactly when the host's token request does; a failure without a message gives "getCallbackTokenAsync failed" |
| `FlagService.ToRestIdRun` | src/taskpane/services/flagService.ts:41-46 | one conversion of the given EWS id; succeeds exactly when the host's conversion does |
| `FlagService.PatchRequestFor` | src/taskpane/services/flagService.ts:62-83 | the request targets the given REST id, its authorization is "Bearer " followed by the token, and both dates go unchanged with time zone "UTC" |
| `FlagService.PatchFailureMessage` | src/taskpane/services/flagService.ts:87 | the failure text starts with "REST PATCH failed (" and ends with the response text |
| `FlagService.PatchFlagRestRun` | src/taskpane/services/flagService.ts:56-89 | one fetch of the PATCH request; succeeds exactly when the response is ok; a network error gives its own message |
| `FlagService.RestPathRun` | src/taskpane/services/flagService.ts:145-148 | the try-block succeeds exactly when token, conversion and PATCH all do; it makes one to three calls and always starts with the token request |
| `FlagService.PatchFlagEwsRun` | src/taskpane/services/flagService.ts:94-134 | one EWS request with the id and both dates; succeeds exactly when the host's request does; a failure without a message gives "EWS UpdateItem failed" |
| `FlagService.SendMessageRun` | src/taskpane/services/flagService.ts:158-176 | the `sendAsync` probe, then the send only when it exists; resolves exactly when `sendAsync` exists and succeeds; without it, rejects with `SEND_UNAVAILABLE` |
| `FlagService.FlagUpdateRun` | src/taskpane/services/flagService.ts:144-151 | the flag update succeeds exactly when the REST path or the EWS update does, and starts with the token request |
| `FlagService.SetFlagAndSendRun` | src/taskpane/services/flagService.ts:140-155 | the first call is always the save, and a failed save is the only call; the workflow resolves exactly when the draft was saved, the flag was set on one of the two paths, and `sendAsync` exists and succeeds |
| `FlagService.SendWithoutFlagRun` | src/taskpane/services/flagService.ts:179-181 | starts with the `sendAsync` probe and never saves; resolves exactly when `sendAsync` exists and succeeds |
| `FlagService.SaveDraft` | src/taskpane/services/flagService.ts:12-22 | one save call; the saved id, or the error message with default "saveAsync failed" |
| `FlagService.GetRestToken` | src/taskpane/services/flagService.ts:25-38 | one REST token request (isRest); the token, or the error message with default "getCallbackTokenAsync failed" |
| `FlagService.ToRestId` | src/taskpane/services/flagService.ts:41-46 | one conversion of the given EWS id |
| `FlagService.PatchFlagRest` | src/taskpane/services/flagService.ts:56-89 | one PATCH; fails with the fetch error, or with "REST PATCH failed (status): text" when the response is not ok |
| `FlagService.PatchFlagEws` | src/taskpane/services/flagService.ts:94-134 | one EWS request carrying the id and both dates; the error message has default "EWS UpdateItem failed" |
| `FlagService.SendMessage` | src/taskpane/services/flagService.ts:158-176 | probes for `sendAsync`; without it rejects with `SEND_UNAVAILABLE` and sends nothing; with it, sends once, and a failure gives its message or "sendAsync failed" |
| `FlagService.TryRestPath` | src/taskpane/services/flagService.ts:145-148 | the try-block's calls (token, conversion, PATCH, stopping at the first failure), and whether the REST update went through |
| `FlagService.UpdateFlag` | src/taskpane/services/flagService.ts:144-151 | the try-block, then one EWS update exactly when the try-block failed; the outcome is the REST success or the EWS outcome |
| `FlagService.SetFlagAndSend` | src/taskpane/services/flagService.ts:140-155 | the result and the calls of `SetFlagAndSendRun`: save, then the try-block, then on its failure one EWS update, then send |
| `FlagService.SendWithoutFlag` | src/taskpane/services/flagService.ts:179-181 | the result and the calls of `sendMessage` alone |
| `FlagService.RestPathShape` | src/taskpane/services/flagService.ts:145-148 | the try-block succeeds exactly when token, conversion and PATCH all do; it always asks for a token first, and makes only token, conversion and PATCH calls, each at most once |
| `FlagService.FlagUpdateShape` | src/taskpane/services/flagService.ts:144-151 | the flag is set exactly when the REST path or EWS succeeds; after a REST failure the calls are the REST path's plus one EWS request with the same id and dates |
| `FlagService.WorkflowShape` | src/taskpane/services/flagService.ts:140-155 | a failed save ends the run; after a save, the flag update runs, and the send follows exactly when the flag was set, giving the outcome |
| `FlagService.SaveFailureStops` | src/taskpane/services/flagService.ts:142 | a failed save is the outcome, and no token, patch or send call is made |
| `FlagService.RestSuccessSkipsEws` | src/taskpane/services/flagService.ts:145-148 | when token, conversion and PATCH succeed, the calls are save, token, conversion of the saved id, PATCH, then the send; EWS is never called |
| `FlagService.FallbackExactlyOnce` | src/taskpane/services/flagService.ts:145-151 | when any of token, conversion or PATCH fails, EWS is called exactly once with the saved id and the same dates; the token is asked for once and PATCH is made at most once |
| `FlagService.BothPathsFailNoSend` | src/taskpane/services/flagService.ts:149-154 | when the REST path and EWS both fail, the EWS error is the outcome and `sendMessage` is not entered |
| `FlagService.SendOnlyAfterFlagUpdate` | src/taskpane/services/flagService.ts:140-155 | `sendMessage` is entered once if the flag was set on one of the two paths and never otherwise; when entered, its outcome is the workflow's |
| `FlagService.WorkflowCallsInOrder` | src/taskpane/services/flagService.ts:140-155 | every trace follows the order save, token, conversion, PATCH, EWS, send probe, send, and no kind of call repeats |
| `FlagService.SaveOnceConvertAtMostOnce` | src/taskpane/services/flagService.ts:142-147 | the draft is saved exactly once, and the EWS id is converted at most once |
| `FlagService.SendWithoutFlagOnlySends` | src/taskpane/services/flagService.ts:179-181 | sending without a flag enters `sendMessage` once and makes no save, token or patch call |
| `FlagService.SendUnavailableIff` | src/taskpane/services/flagService.ts:158-176 | rejects with `SEND_UNAVAILABLE` exactly when `sendAsync` is missing or the host's failure message is that text; resolves exactly when `sendAsync` exists and succeeds; `sendAsync` is called once if present, never if missing |
| `FlagService.FlagSetButSendUnavailable` | src/taskpane/services/flagService.ts:153-174 | once the flag is set, a host without `sendAsync` makes the workflow reject with `SEND_UNAVAILABLE` |
| `FlagService.DefaultMessages` | src/taskpane/services/flagService.ts:140-151 | a save failure without a message ends the workflow with "saveAsync failed"; a token failure without one gives "getCallbackTokenAsync failed"; a fallback failure without one ends the workflow with "EWS UpdateItem failed" |
| `FlagService.PatchFlagRestRequest` | src/taskpane/services/flagService.ts:56-89 | the PATCH targets the given REST id with `Bearer <token>`, and its body has FlagStatus "Flagged" and both dates unchanged in time zone "UTC"; it fails exactly when the response is not ok |
| `FlagService.PatchFailureMessageReadsBack` | src/taskpane/services/flagService.ts:87 | the PATCH failure text is "REST PATCH failed (", the status code (which reads back), "): ", then the response text |

## Left out

- `toIso` (`Date.prototype.toISOString`) is not modelled. The form takes it as a parameter `toIso` from day numbers to text, and the flag service treats date-time text as opaque.
- Local time zones and daylight-saving time are not modelled. A day number stands for local midnight.
- The custom date is kept as a day number (`customDay`). Its text form and its parse with `new Date(customDate + "T00:00:00")` are not modelled. Invalid input text would make `toISOString` throw inside the `try` block and show an error.
- The conversion from a day number to the year, month and day that `getFullYear`, `getMonth` and `getDate` return belongs to the host's calendar. `ToInputDate` takes those three values directly.
- The PATCH URL (`restUrl`, `encodeURIComponent`) is not modelled. The request records the REST id, the headers and the body as structured values; `JSON.stringify` is not modelled.
- The SOAP text of the EWS request is not modelled. Only its id and its two dates are recorded.
- A rejection of `response.text()` is not modelled. The response text is given.
- A synchronous throw from a host primitive (for example a missing `mailbox.item`) is not modelled. `convertToRestId` throwing is modelled as a failed conversion.
- Promises are modelled as sequential calls. React state updates are modelled as immediate field updates.
- Each primitive has one fixed outcome per host. `WorkflowCallsInOrder` shows that no primitive is called twice in one run, so nothing is lost.
- The form's status history (`history`) and the host's call trace are two separate records. So no contract states that the status becomes loading (`ReminderForm.tsx:110`, `:130`) before the first host call (`:112`, `:132`). Each handler's code sets loading first.
- Rendering, styling and labels are not modelled. The `disabled={isLoading}` gating appears only as the `requires !status.Loading?` of the form's methods, and the custom date input appearing only while "custom" is selected appears only as `SetCustomDay`'s `requires selected == Some(Custom)`.
- The send interceptor (`src/launchevent/launchevent.ts`), the task-pane bootstrap (`src/taskpane/taskpane.tsx`) and `webpack.config.js` are not part of this model. They contain host registration and build configuration, with no branching logic.
