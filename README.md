# SafeVision client core in Dafny

SafeVision is an iPad client for a CCTV safety-monitoring backend. An
operator watches camera clips, receives danger alerts, and edits the
detection conditions (fall, collision, crowd density, restricted area)
that the backend should look for. This project models the logic behind
that client that is not layout, and proves properties of it:

- **Server-sent events** (`Sse`). A chunk of the event stream is cut into
  lines. Only `data: ` lines are decoded, and each decoded payload is
  published in line order. The service also guards its single stream
  connection and completes its subject.
- **REST client** (`Network`). It holds the endpoint table (method and
  path per route) and builds the health-check, polling and status-update
  requests. It guards the single polling timer, and it hands the outcome
  of each fetch to its completion.
- **Detection-rule vocabulary** (`Conditions`). It covers the client
  condition types, their raw values and ids, and the mapping to the
  server's rule types.
- **Condition list** (`ConditionViewModel`). Conditions are upserted by
  id, deleted by position or deleted by id.
- **Condition sheet** (`ConditionSheet`). It covers the risk label, when
  Save is enabled, the risk stepper, which form a navigation route opens,
  and how the buttons reach the list.
- **Danger bars** (`Home`). A severity string picks how many of five bars
  are tinted and which tint they get.
- **Video loading** (`AlertDetail`, `Cctv`). Bundled clip names are split
  into a resource name and an extension and looked up in the bundle. This
  sets the alert-detail player or builds the CCTV clip list.

Objects whose fields the Swift code updates are classes with `modifies`
clauses: `AlamofireSseService`, `PassthroughSubject`, `NetworkService`,
`DetectConditionViewModel`, `AlertDetailViewModel` and `CctvViewModel`.
Each method's `ensures` states the new state with a function of the old
state or of the inputs, and lemmas prove the promised properties of those
functions.

The following depend on things outside the model, so they are function
parameters:
- the JSON decoder (`decode`, `decodeApiError`);
- the bundle lookup (`Bundle`);
- the UTF-8 decoding of a stream chunk (the optional text given to
  `OnStreamData`);
- fresh `UUID`s (explicit ids).

Network traffic is a log of issued requests, with answers given by
explicit response calls. A timer firing is a call of `Tick`.

Four behaviours of the REST client are easy to misread, and the model
keeps them as the code has them:
- polling requests the `/health` url, because `endpoint` is `.healthCheck`;
- the status-update url has no scheme;
- fetch completions still fire after `stopAlertPolling`;
- the 422 detail is only printed, and it is not attached to the error.

## Model

| member | source | states |
|---|---|---|
| Conditions.FromRawValue | SafeVison/Models/DetectCondition.swift:10-14 | a raw value decodes only to the case that has that raw value |
| Conditions.RawValue | SafeVison/Models/DetectCondition.swift:10-14 | a case is declared if and only if its raw value is Fall, Collision, Density or RestrictedArea; the added undeclared case has none of these |
| Conditions.Id | SafeVison/Models/DetectCondition.swift:16 | the id of a case decodes back to that case, so the id identifies the case |
| Conditions.Description | SafeVison/Models/DetectCondition.swift:19-21 | the description equals the id and equally identifies the case |
| Conditions.IdsDistinct | SafeVison/Models/DetectCondition.swift:11-14 | distinct cases have distinct ids |
| Conditions.ServerRuleTypeOf | SafeVison/Models/DetectCondition.swift:48-55 | the optional server rule type is absent exactly for the undeclared `undefined` case, so it is never nil for a declared case |
| Conditions.ClientTypeOf | SafeVison/Models/DetectCondition.swift:48-55 | the server-side reading of the table only ever yields declared client types |
| Conditions.ServerRawValue | SafeVison/Models/DetectCondition.swift:34-43 | a server rule type is one of the four the mapping produces if and only if its wire string is fall_detection, collision_risk, crowd_in_zone or zone_entry |
| Conditions.MappingInverse | SafeVison/Models/DetectCondition.swift:50-53 | client type t maps to server type s if and only if s reads back as t |
| Conditions.MappingInjective | SafeVison/Models/DetectCondition.swift:50-53 | distinct client types give distinct server rule types |
| Conditions.MappingImage | SafeVison/Models/DetectCondition.swift:34-55 | a server rule type is produced by some client type if and only if it is fall_detection, collision_risk, crowd_in_zone or zone_entry |
| Conditions.MappingWireStrings | SafeVison/Models/DetectCondition.swift:34-55 | a server rule type is produced by some client type if and only if its wire string is one of the four mapped names |
| Conditions.NewCondition | SafeVison/Models/DetectCondition.swift:23-31 | the short initializer keeps the given id, type, description and rate and sets name "" and duration 0 |
| ConditionViewModel.FirstIndexOf | SafeVison/ViewModels/DetectConditionViewModel.swift:45 | the index found holds the id and no earlier position does; no index is found exactly when no element has the id |
| ConditionViewModel.Upsert | SafeVison/ViewModels/DetectConditionViewModel.swift:44-50 | after insert the list contains the condition, grows by at most one, and every position holding another id keeps its element; the exact shape is given by UpsertReplacesFirstMatch and UpsertAppendsNew |
| ConditionViewModel.UpsertReplacesFirstMatch | SafeVison/ViewModels/DetectConditionViewModel.swift:45-46 | inserting a present id puts the condition at its first position and leaves the length and every other position unchanged |
| ConditionViewModel.UpsertAppendsNew | SafeVison/ViewModels/DetectConditionViewModel.swift:47-49 | inserting a new id appends it: the length grows by one and the old list is a prefix |
| ConditionViewModel.UpsertKeepsUniqueIds | SafeVison/ViewModels/DetectConditionViewModel.swift:44-50 | unique ids stay unique after an insert |
| ConditionViewModel.RemoveOffsets | SafeVison/ViewModels/DetectConditionViewModel.swift:53 | removing offsets never lengthens the list |
| ConditionViewModel.RemoveAllWithId | SafeVison/ViewModels/DetectConditionViewModel.swift:57 | removing an id never lengthens the list |
| ConditionViewModel.Survivors | SafeVison/ViewModels/DetectConditionViewModel.swift:53 | every surviving position is a position of the list |
| ConditionViewModel.SurvivorsExact | SafeVison/ViewModels/DetectConditionViewModel.swift:53 | the survivors are exactly the positions not removed, in strictly increasing order |
| ConditionViewModel.RemoveOffsetsAtSurvivors | SafeVison/ViewModels/DetectConditionViewModel.swift:52-54 | the list after delete(at:) is the old list read at the surviving positions, in order |
| ConditionViewModel.RemoveOffsetsOnlyInRange | SafeVison/ViewModels/DetectConditionViewModel.swift:53 | offset sets that agree on the list's positions remove the same elements |
| ConditionViewModel.RemoveOffsetsLength | SafeVison/ViewModels/DetectConditionViewModel.swift:52-54 | with valid offsets the length drops by exactly the number of offsets |
| ConditionViewModel.RemoveAllIsRemoveOffsets | SafeVison/ViewModels/DetectConditionViewModel.swift:56-58 | delete(id:) equals delete(at:) of exactly the positions holding that id, so the rest keep their order |
| ConditionViewModel.RemoveAllMembership | SafeVison/ViewModels/DetectConditionViewModel.swift:56-58 | a condition survives delete(id:) if and only if it was present and has another id |
| ConditionViewModel.RemoveAbsentId | SafeVison/ViewModels/DetectConditionViewModel.swift:56-58 | deleting an absent id leaves the list unchanged |
| ConditionViewModel.RemoveOffsetsKeepsUniqueIds | SafeVison/ViewModels/DetectConditionViewModel.swift:52-54 | unique ids stay unique after removing positions |
| ConditionViewModel.InitialConditions | SafeVison/ViewModels/DetectConditionViewModel.swift:13-42 | the initial list has nine conditions carrying the nine fresh ids in order |
| ConditionViewModel.DetectConditionViewModel.constructor | SafeVison/ViewModels/DetectConditionViewModel.swift:13-42 | the list starts as the nine sample conditions, with unique ids when the fresh ids are distinct |
| ConditionViewModel.DetectConditionViewModel.Insert | SafeVison/ViewModels/DetectConditionViewModel.swift:44-50 | the new list is the upsert of the old one; it contains the condition and keeps ids unique |
| ConditionViewModel.DetectConditionViewModel.DeleteAt | SafeVison/ViewModels/DetectConditionViewModel.swift:52-54 | the new list is the old one without the offsets, shorter by their number, ids still unique |
| ConditionViewModel.DetectConditionViewModel.DeleteId | SafeVison/ViewModels/DetectConditionViewModel.swift:56-58 | exactly the conditions with another id remain, ids still unique |
| ConditionSheet.RateLabel | SafeVison/Views/DetectConditionSheet.swift:108 | the label is one of Critical, High, Medium and Low |
| ConditionSheet.LabelRank | SafeVison/Views/DetectConditionSheet.swift:108 | the rank read from a label lies in the stepper's range 1...4 |
| ConditionSheet.RateLabelRoundTrip | SafeVison/Views/DetectConditionSheet.swift:108 | reading a label back gives the rate clamped to 1...4, and a label depends only on the clamped rate: Critical for 4 and above, High for 3, Medium for 2, Low for 1 and below |
| ConditionSheet.ClampRate | SafeVison/Views/DetectConditionSheet.swift:151 | the clamped rate lies in 1...4 and equals the rate when the rate already does |
| ConditionSheet.StepUp | SafeVison/Views/DetectConditionSheet.swift:151 | the stepper's plus keeps the rate in 1...4, adds one below 4 and stays at 4 |
| ConditionSheet.StepDown | SafeVison/Views/DetectConditionSheet.swift:151 | the stepper's minus keeps the rate in 1...4, subtracts one above 1 and stays at 1 |
| ConditionSheet.TrimLeading | SafeVison/Views/DetectConditionSheet.swift:169 | the result is a suffix preceded only by whitespace and newlines and does not itself start with one |
| ConditionSheet.TrimTrailing | SafeVison/Views/DetectConditionSheet.swift:169 | the result is a prefix followed only by whitespace and newlines and does not itself end with one |
| ConditionSheet.Trim | SafeVison/Views/DetectConditionSheet.swift:169 | the trimmed text is empty if and only if the text is all whitespace and newlines; otherwise it starts and ends with a character that is neither |
| ConditionSheet.SaveDisabled | SafeVison/Views/DetectConditionSheet.swift:169 | Save is disabled if and only if the description consists only of whitespace and newlines |
| ConditionSheet.AddDraft | SafeVison/Views/DetectConditionSheet.swift:56 | the add draft has the fresh id, type fall, rate 3 and an empty description |
| ConditionSheet.AddDraftStartsUnsavable | SafeVison/Views/DetectConditionSheet.swift:56 | a fresh add draft starts with Save disabled |
| ConditionSheet.DestinationOf | SafeVison/Views/DetectConditionSheet.swift:52-73 | the add route opens the add draft; an edit route opens a form if and only if its id is present, and that form is for the first condition with the id |
| ConditionSheet.EditDraft | SafeVison/Views/DetectConditionSheet.swift:133-157 | the form can change type, description and rate but never the id, name or duration |
| ConditionSheet.SaveFromEditReplacesInPlace | SafeVison/Views/DetectConditionSheet.swift:61-67 | saving an edit replaces the condition it was opened from, at the first position with its id, without changing the length |
| ConditionSheet.SaveFromAddAppends | SafeVison/Views/DetectConditionSheet.swift:54-60 | saving an add draft with a new id appends it |
| ConditionSheet.PressSave | SafeVison/Views/DetectConditionSheet.swift:165-169 | Save goes through if and only if the description is not blank; then the list is the upsert of the draft, otherwise it is unchanged |
| ConditionSheet.PressDelete | SafeVison/Views/DetectConditionSheet.swift:39-41 | a card's delete button removes every condition with that card's id |
| Home.NumberOfBars | SafeVison/Views/HomeView.swift:134-150 | the count is at most 4 and is 0 exactly for strings other than critical, high, medium and low |
| Home.BarColor | SafeVison/Views/HomeView.swift:134-150 | the tint is clear exactly when no bar is lit |
| Home.Bars | SafeVison/Views/HomeView.swift:152-159 | exactly five bars; bar i is tinted if and only if i is below the count; tinted bars carry the switch's non-clear tint; the tinted count equals the count; the last bar is always grey |
| Home.BarsFollowSeverity | SafeVison/Views/HomeView.swift:134-146 | each severity lights its rank of bars (low 1 to critical 4), strictly increasing with severity |
| Home.CapitalisedSeveritiesLightNothing | SafeVison/Views/HomeView.swift:134-150 | the switch is case-sensitive: capitalised severities light no bar |
| AlertDetail.Split | SafeVison/ViewModels/AlertDetailViewModel.swift:17 | every piece is non-empty and free of the separator |
| AlertDetail.SplitAfterPiece | SafeVison/ViewModels/AlertDetailViewModel.swift:17 | a non-empty separator-free piece followed by a separator splits off as that piece |
| AlertDetail.SplitJoinRoundTrip | SafeVison/ViewModels/AlertDetailViewModel.swift:17 | splitting the separator-joined text of non-empty separator-free pieces gives those pieces back |
| AlertDetail.ParseFileName | SafeVison/ViewModels/AlertDetailViewModel.swift:17-23 | a name is accepted if and only if it splits into exactly two pieces; then the resource is the first piece and the extension the last |
| AlertDetail.ParseFileNameRoundTrip | SafeVison/ViewModels/AlertDetailViewModel.swift:17-23 | resource.extension, both non-empty and dot-free, yields that resource and extension |
| AlertDetail.DoubledDotAccepted | SafeVison/ViewModels/AlertDetailViewModel.swift:17-18 | empty pieces are dropped, so resource..extension is still accepted as resource and extension |
| AlertDetail.TrailingDotRejected | SafeVison/ViewModels/AlertDetailViewModel.swift:17-23 | a single dot-free name followed by a dot leaves one piece and is rejected |
| AlertDetail.TwoDotsRejected | SafeVison/ViewModels/AlertDetailViewModel.swift:17-23 | a name with three pieces is rejected |
| AlertDetail.PlayerAfterLoad | SafeVison/ViewModels/AlertDetailViewModel.swift:15-33 | a rejected name keeps the current player; an accepted name gives a player for exactly the url the bundle returns for its first and last pieces, or keeps the current player when the bundle returns none |
| AlertDetail.LoadWellFormedName | SafeVison/ViewModels/AlertDetailViewModel.swift:15-33 | loading resource.extension plays exactly the url the bundle finds for that pair and keeps the current player when it finds none |
| AlertDetail.AlertDetailViewModel.constructor | SafeVison/ViewModels/AlertDetailViewModel.swift:12-13 | both players start absent |
| AlertDetail.AlertDetailViewModel.LoadVideo | SafeVison/ViewModels/AlertDetailViewModel.swift:15-33 | a rejected name or a missing resource keeps the detail player; otherwise it plays the found url; the stream player is untouched |
| Cctv.LookUp | SafeVison/ViewModels/CCTVViewModel.swift:22-35 | a rejected name contributes nothing; an accepted name contributes exactly the url the bundle returns for its first and last pieces, or nothing when the bundle returns none |
| Cctv.LoadedUrls | SafeVison/ViewModels/CCTVViewModel.swift:21-36 | the loop collects at most one url per name |
| Cctv.LoadedUrlsConcat | SafeVison/ViewModels/CCTVViewModel.swift:23-35 | the urls for two runs of names are those of the first run followed by those of the second, so a skipped name never stops later names |
| Cctv.LoadedUrlsProvenance | SafeVison/ViewModels/CCTVViewModel.swift:21-35 | every collected url is the bundle's answer for the two pieces of some well-formed listed name |
| Cctv.Mp4NameWellFormed | SafeVison/ViewModels/CCTVViewModel.swift:22-28 | a non-empty dot-free name plus .mp4 splits into that name and mp4 |
| Cctv.FixedNamesWellFormed | SafeVison/ViewModels/CCTVViewModel.swift:16 | all four fixed names split into cctvN and mp4 |
| Cctv.FixedNamesLoad | SafeVison/ViewModels/CCTVViewModel.swift:16-38 | the fixed list loads, in order, the url of each of the four clips that the bundle has, so only a missing resource drops one |
| Cctv.CctvViewModel.constructor | SafeVison/ViewModels/CCTVViewModel.swift:13-16 | no videos yet, and the four fixed names |
| Cctv.CctvViewModel.LoadVideos | SafeVison/ViewModels/CCTVViewModel.swift:18-39 | videos become the urls collected for the names, whatever they were before, so a second load gives the same list; at most one per name |
| Sse.FirstNewline | SafeVison/Services/SSEService.swift:82 | the position found is a newline with none before it; none is found exactly when the text has no newline |
| Sse.Lines | SafeVison/Services/SSEService.swift:82 | a chunk has at least one line and no line holds a newline |
| Sse.LinesOfOneLine | SafeVison/Services/SSEService.swift:82 | text without a newline is a single line |
| Sse.LinesAround | SafeVison/Services/SSEService.swift:82 | a newline ends the first line: newline-free text, a newline and the rest are that line followed by the lines of the rest |
| Sse.Payload | SafeVison/Services/SSEService.swift:84-86 | the payload is the line with exactly its first six characters (the prefix) removed |
| Sse.LineEvent | SafeVison/Services/SSEService.swift:85-99 | a line yields an event if and only if it starts with data: and the rest after those six characters decodes, and the event is that decoded value |
| Sse.LineEvents | SafeVison/Services/SSEService.swift:85-99 | a line contributes at most one event: the decoded payload of a data: line, and nothing for any other line |
| Sse.OneLine | SafeVison/Services/SSEService.swift:85-99 | a line yields its decoded payload if it starts with data: and the payload decodes, and nothing otherwise |
| Sse.EventsOf | SafeVison/Services/SSEService.swift:83-101 | at most one event per line |
| Sse.EventsOfConcat | SafeVison/Services/SSEService.swift:83-101 | the events of two runs of lines are those of the first run followed by those of the second, so lines are handled independently and in order |
| Sse.ChunkEvents | SafeVison/Services/SSEService.swift:82-101 | one chunk publishes at most as many events as it has lines; with EventsOfConcat and OneLine, exactly the decoded data: payloads in line order |
| Sse.TwoDataLinesAroundComment | SafeVison/Services/SSEService.swift:82-101 | two data lines around a comment line publish exactly their two payloads, in order |
| Sse.MalformedLineSkipped | SafeVison/Services/SSEService.swift:89-99 | a data line whose payload fails to decode is skipped and the next data line still publishes |
| Sse.PassthroughSubject.constructor | SafeVison/Services/SSEService.swift:21 | nothing received and no completion yet |
| Sse.PassthroughSubject.Send | SafeVison/Services/SSEService.swift:95 | a value is appended to what subscribers received unless the subject has completed |
| Sse.PassthroughSubject.SendCompletion | SafeVison/Services/SSEService.swift:55 | only the first completion is kept; received values are untouched |
| Sse.AlamofireSseService.constructor | SafeVison/Services/SSEService.swift:21-26 | no stream request and a fresh, empty subject |
| Sse.AlamofireSseService.Connect | SafeVison/Services/SSEService.swift:30-71 | with a live request nothing changes; otherwise one new request with the event-stream headers becomes live; at most one request is ever live |
| Sse.AlamofireSseService.Disconnect | SafeVison/Services/SSEService.swift:73-77 | the request is cleared (cancelled if present), so a second call changes nothing |
| Sse.AlamofireSseService.ParseLine | SafeVison/Services/SSEService.swift:84-99 | exactly the line's event, if any, is sent |
| Sse.AlamofireSseService.ParseLines | SafeVison/Services/SSEService.swift:83-101 | exactly the events of the lines are sent, in line order |
| Sse.AlamofireSseService.Parse | SafeVison/Services/SSEService.swift:81-102 | exactly the chunk's events are sent, in line order, and the completion is untouched |
| Sse.AlamofireSseService.OnStreamData | SafeVison/Services/SSEService.swift:49-52 | a chunk that decodes as UTF-8 is parsed; one that does not is dropped |
| Sse.AlamofireSseService.OnStreamFailure | SafeVison/Services/SSEService.swift:53-55 | a failure completion is sent and the stream request is kept |
| Sse.AlamofireSseService.OnComplete | SafeVison/Services/SSEService.swift:58-67 | sends failure when the completion has an error and finished otherwise, then disconnects |
| Network.MethodOf | SafeVison/Services/NetworkService.swift:155-162 | a route is a PATCH if and only if it is the status update, and a GET otherwise |
| Network.PathOf | SafeVison/Services/NetworkService.swift:165-174 | healthCheck has /health and getAlerts has /api/v1/alerts; the status update has the alerts path, a slash, the id and /status, and the id can be read back from it |
| Network.RouteOf | SafeVison/Services/NetworkService.swift:165-174 | a path read back as a route is that route's path |
| Network.PathRoundTrip | SafeVison/Services/NetworkService.swift:165-174 | every route's path (/health, /api/v1/alerts, /api/v1/alerts/id/status) reads back as that route |
| Network.PathInjective | SafeVison/Services/NetworkService.swift:165-174 | distinct routes have distinct paths |
| Network.HealthCheckUrl | SafeVison/Services/NetworkService.swift:38-41 | the health-check url is an https url ending in /health and is never the getAlerts url |
| Network.FetchAlertsPollsHealth | SafeVison/Services/NetworkService.swift:38-41 | the health-check url, which fetchAlerts also requests, is https:// plus the host plus /health, not the getAlerts url |
| Network.ReplaceAll | SafeVison/Services/NetworkService.swift:120 | an empty target changes nothing, and neither does replacing the target by itself |
| Network.ReplaceAbsent | SafeVison/Services/NetworkService.swift:120 | replacing a target that does not occur changes nothing |
| Network.PlaceholderOnlyFromId | SafeVison/Services/NetworkService.swift:119-120 | the resolve path holds {alert_id} only if the id does |
| Network.ResolveUrl | SafeVison/Services/NetworkService.swift:119-120 | the url starts with the host and has no scheme; unless the id contains {alert_id}, it is the host plus /api/v1/alerts/ plus the id plus /status |
| Network.ResolveRequest | SafeVison/Services/NetworkService.swift:119-125 | the status update is a PATCH whose body sets status to resolved |
| Network.Diagnose | SafeVison/Services/NetworkService.swift:103-110 | only a failed fetch with a body and status 422 is examined; its diagnostic is UndecodableBody if and only if the body does not decode, and otherwise the first detail's message, or 내용 없음 when the list is empty |
| Network.FetchCompletion | SafeVison/Services/NetworkService.swift:94-111 | the completion receives the decoded list or the original error, unchanged |
| Network.FetchCompletionPassesThrough | SafeVison/Services/NetworkService.swift:99-111 | whatever the 422 body holds and however it decodes, a fetch that produced a diagnostic hands its completion the original error |
| Network.NetworkService.constructor | SafeVison/Services/NetworkService.swift:22 | no timer, no request, no pending answer |
| Network.NetworkService.PerformHealthCheck | SafeVison/Services/NetworkService.swift:43-45 | one GET of the health-check url is issued and nothing else changes |
| Network.NetworkService.StartAlertPolling | SafeVison/Services/NetworkService.swift:70-81 | with a live timer nothing changes; otherwise a new timer for the subscriber becomes live; at most one timer is ever live, and after a stop a start arms again |
| Network.NetworkService.StopAlertPolling | SafeVison/Services/NetworkService.swift:83-87 | the timer is cleared (cancelled if present), so a second call changes nothing; pending fetches stay pending |
| Network.NetworkService.FetchAlerts | SafeVison/Services/NetworkService.swift:89-94 | one GET of the health-check url is issued and its answer awaited for the subscriber |
| Network.NetworkService.Tick | SafeVison/Services/NetworkService.swift:75-80 | the live timer fetches for its subscriber; with no live timer nothing is sent |
| Network.NetworkService.OnFetchResponse | SafeVison/Services/NetworkService.swift:94-112 | the pending fetch's completion receives the list or the original error, also after polling has stopped |
| Network.NetworkService.ResolveAlert | SafeVison/Services/NetworkService.swift:117-125 | the status-update request is issued and its answer awaited for the subscriber |
| Network.NetworkService.OnResolveResponse | SafeVison/Services/NetworkService.swift:127-136 | the pending update's completion receives success or the original error |

## Left out

- Alamofire, the `Session`, the `ServerTrustManager` that disables certificate checks, TLS, `.validate()` and status-code checks are foreign I/O. Requests are logged, and responses are inputs to explicit calls.
- JSON decoding (`JSONDecoder`, `responseDecodable`, the `APIError` body) is a function parameter. The model does not say what any JSON text decodes to.
- The health-check response handling only prints, so it is not modelled beyond the request.
- Every `print`, including the 422 log line, is left out. `Network.Diagnose` states what that branch would log.
- Threads and timers (`DispatchQueue.main.async` in parse, `Timer.publish`, `[weak self]`) are left out. An event from `parse` is sent immediately and in line order, with no main-queue hop. A timer firing is a call of `Tick`, so the one-second interval is not modelled.
- Sse.AlamofireSseService.Parse: the `data(using: .utf8)` guard on a payload is assumed never to fail, because the payload is already a Swift string.
- Sse.AlamofireSseService.OnStreamData: each chunk is parsed on its own, as in the code. The model does not buffer a line split across two chunks.
- Sse.AlamofireSseService.OnComplete: a `.complete` event that arrives after `disconnect` has cancelled the request is modelled like any other, since Alamofire's timing is not modelled.
- Strings are sequences of Unicode scalars, not Swift's grapheme clusters. Two tests compare Characters in Swift, so a combining mark that follows the tested character makes them answer differently:
  - `split(separator: ".")` in the file-name guard (`AlertDetail.Split`). Swift does not split at a `.` followed by a combining mark; the model does.
  - `hasPrefix("data: ")` and `dropFirst(6)` in `parse` (`Sse.LineEvent`). Swift skips a line such as `data: ` followed by U+0301 and a payload; the model decodes it.
- Splitting a chunk into lines works on Unicode scalars in Swift too, so `Sse.Lines` agrees with it.
- AVPlayer playback (`play`, `pause`, `VideoPlayer`) is left out. A player is identified by the url it plays.
- `Bundle.main.url` is a function parameter, with no model of the bundle's contents.
- Conditions.DetectConditionType: the `undefined` case used by the view model's initial list is not declared in the Swift enum. It is added here with raw value "undefined" and no server rule type.
- Conditions.NewCondition: `DetectCondition` declares no `init(type:description:rate:)`, yet DetectConditionViewModel.swift:14-41 and DetectConditionSheet.swift:56 call it. Name "" and duration 0 are chosen defaults.
- ConditionViewModel.DetectConditionViewModel.DeleteAt: requires every offset to be a position of the list. Swift's `remove(atOffsets:)` traps on any other offset, and the model does not cover that trap.
- ConditionSheet.StepUp: SwiftUI's `Stepper(in: 1...4)` is modelled as clamping to the range. The model does not cover how SwiftUI treats a rate that is already outside the range.
- ConditionSheet.StepDown: the same as for `StepUp`: the rate is clamped to 1...4, and SwiftUI's handling of a rate already outside that range is not covered.
- Fresh `UUID()`s are explicit parameters. Distinct ids are assumed only where a contract says so.
- The SwiftUI layout, styling, alerts list, CCTV and alert-detail views, dropdowns, colours and fixtures are rendering only. `Alert` is a plain record.
