# Pulse terminal client — a Dafny model

Pulse is a terminal client that polls a monitoring API for the services it
watches and shows them as a live table. A user can also register a new
service through an inline form. This project models the client's decision
logic in Dafny and proves what it promises:

- **The TUI state machine** (`tui/model.go`, module `TuiModel`). The model is
  a value and `Update` is a function from `(model, message)` to
  `(model, writes, command)`. `writes` lists the `WriteClientID` calls made
  during the step. The command is one of `NoCmd`, `Quit`, `Suspend`, `Blink`,
  `Tick(seconds)`, `Fetch(apiUrl, clientId)` or
  `AddService(apiUrl, clientId, name, url)`. Text inputs are reduced to a
  placeholder, a buffer and a focus flag. The widget's own per-key editing is
  a function parameter `edit`.
- **The API client** (`tui/api.go`, module `TuiApi`) with the network taken
  out:
  - `parseLatencyMs` over a classified JSON token.
  - The per-record normalisation loop, as a method that fills an array.
  - The classification of a GET or POST outcome into the message the state
    machine receives.
- **The renderer** (`tui/view.go`, module `TuiView`). The column layout
  arithmetic, the row-limited service table (a loop method proved against a
  specification function), the per-row labels, and the precedence of
  `render`'s branches. A frame is kept as structure: which block is shown, the
  literal texts, the column widths and each row's cells.
- **The older standalone client** (`main.go`, module `Legacy`). Its own
  model, `Update` (a 2-second poll whatever the outcome), its fetch
  classification, the body-building loop of `View`, and the byte-based
  `truncate`.
- `Format` holds Go's `%d` with an inverse parser, and the latency cell
  shared by both programs. `TuiFlows` holds end-to-end scenarios that chain
  `Update` with the API results and the renderer.

Points where the code's behaviour differs from what one might expect:

- A failed fetch does not keep the previous list. `servicesMsg` for a failure
  carries no entries, and `updateList` assigns `m.entries = msg.entries`
  unconditionally (tui/model.go:171, tui/api.go:41-51). The screen then shows
  the error block instead of a table (`TuiFlows.FailedFetch`).
- The API client never fills the `clientID` fields of the messages it builds,
  so identity adoption only happens for messages that carry one; no
  `X-Client-ID` header handling is modelled. tui/model.go calls
  `fetchServices(apiURL, clientID)` and `addService(apiURL, clientID, name, url)`
  while tui/api.go declares them without `clientID`; the commands carry the
  arguments tui/model.go passes.
- While the add form is open every non-key message is dropped
  (tui/model.go:126), fetch results and ticks included, so a poll that arrives
  while the form is open is lost (`TuiModel.FormLosesPolling`). Leaving the
  form with Esc or with an empty submit issues no command, so it does not
  restart polling (`TuiModel.PollLostInForm`); only a non-empty submit's
  follow-up fetch does (tui/model.go:183-193, `TuiModel.ListPollingChain`).
- The older client always re-polls after 2 s, with no backoff on error.

## Model

| member | source | states |
|---|---|---|
| `Format.NatToString` | tui/model.go:176 | `%d` of a count is a non-empty digit string with no leading zero whose decimal value is the count |
| `Format.ParseIntToString` | tui/api.go:46 | reading back the `%d` text of any integer, negative ones included, gives that integer |
| `Format.IntToStringInjective` | tui/model.go:176 | different counts never print alike, so "<n> service(s)" names its count |
| `Format.LatencyLabel` | tui/view.go:103-106 | the latency cell is "—" exactly when there is no latency, else "<n> ms" |
| `TuiModel.Reset` | tui/model.go:131-132 | resetting a text input empties its buffer and keeps its placeholder and focus |
| `TuiModel.NewInput` | tui/model.go:57-64 | a new input has the given placeholder, an empty buffer and no focus |
| `TuiModel.NewModel` | tui/model.go:66-76 | the initial model is in list mode with no entries, no error, status "Connecting…", focus 0, empty buffers, and satisfies the invariant |
| `TuiModel.ResetForm` | tui/model.go:129-137 | leaving the form clears and blurs both buffers, sets focus 0 and list mode, changes nothing else, and re-establishes the invariant |
| `TuiModel.FocusUrl` | tui/model.go:139-144 | focus moves to the URL field, with the name field blurred and the URL field focused; buffers, placeholders and all else unchanged |
| `TuiModel.Run` | tui/model.go:83-88 | folding messages through Update yields one command per message |
| `TuiModel.UpdatePreservesValid` | tui/model.go:83-198 | every transition keeps: focus is 0 or 1; in list mode focus is 0 and both buffers are empty and blurred; in the form exactly the focused buffer has the keyboard |
| `TuiModel.RunPreservesValid` | tui/model.go:83-88 | the invariant holds after any sequence of messages from a valid model |
| `TuiModel.ReachableValid` | tui/model.go:66-88 | every model reachable from the initial one satisfies the invariant |
| `TuiModel.FormDropsNonKeys` | tui/model.go:84-86 | in form mode any non-key message leaves the model unchanged, writes nothing and issues no command |
| `TuiModel.FormLosesPolling` | tui/model.go:94-126 | any run of non-key messages while the form is open, ticks and fetch results included, changes nothing and issues only no-ops, so the pending poll is lost |
| `TuiModel.FormEscape` | tui/model.go:98-99 | Esc leaves the form exactly as resetForm does (empty, blurred buffers, focus 0, every other field unchanged), writes nothing and issues no command |
| `TuiModel.PollLostInForm` | tui/model.go:94-126 | a tick or fetch result arriving while the form is open, followed by Esc, ends in the reset list model with no write and only no-op commands, so no poll is scheduled again |
| `TuiModel.FormAdvance` | tui/model.go:100-103 | Enter or Tab on the name field gives exactly focusURL's model (focus on the URL field, buffers and every other field unchanged), stays in the form and issues Blink |
| `TuiModel.FormTabOnUrl` | tui/model.go:111-115 | Tab on the URL field is a no-op |
| `TuiModel.FormSubmit` | tui/model.go:104-110 | Enter on the URL field always leaves the form as resetForm does; with an empty name or URL the model is that plus status "Name and URL required" and nothing is issued, otherwise the model is exactly resetForm's and AddService is issued with the captured name and URL and the current client ID |
| `TuiModel.FormEdit` | tui/model.go:117-124 | any other key changes only the focused buffer, as the editor says, and forwards the editor's command |
| `TuiModel.ListQuit` | tui/model.go:150-152 | "q" or "ctrl+c" in list mode sets quitting and issues Quit, changing nothing else |
| `TuiModel.ListSuspend` | tui/model.go:153-154 | "ctrl+z" issues Suspend and changes nothing |
| `TuiModel.ListOpenForm` | tui/model.go:155-160 | "a" opens the form with focus 0, the name field focused, empty buffers, every field outside the form unchanged, and issues Blink |
| `TuiModel.ListOtherKey` | tui/model.go:149-161 | any other key in list mode is a no-op |
| `TuiModel.ListResize` | tui/model.go:162-165 | a resize changes only width and height |
| `TuiModel.ListTick` | tui/model.go:194-195 | a tick issues Fetch with the current client ID and changes nothing |
| `TuiModel.ListServices` | tui/model.go:166-182 | a fetch result sets entries and error to the message's unconditionally, sets status "Error: …" or "<n> service(s)", and issues Tick(5) on error and Tick(2) otherwise; nothing else but the client ID changes |
| `TuiModel.ListAdoptsClientId` | tui/model.go:167-170 | a fetch or add result with a non-empty client ID makes it current and writes it exactly once; an empty one changes nothing and writes nothing |
| `TuiModel.ListAddDone` | tui/model.go:183-193 | an add result sets "Add failed: …" or "Service added. Refreshing…" and always issues an immediate Fetch with the updated client ID |
| `TuiModel.ListPollingChain` | tui/model.go:166-195 | in list mode a Fetch is issued exactly for a tick or an add result, and a Tick exactly for a fetch result |
| `TuiModel.PersistOnlyFromResults` | tui/model.go:166-193 | the client-ID file is written only for a fetch or add result in list mode that carries a non-empty ID |
| `TuiApi.TruncTowardZero` | tui/api.go:31 | `int(f)` for a float in range rounds toward zero: the result is within 1 of the value, on the same side of zero |
| `TuiApi.ParseLatencyMs` | tui/api.go:21-35 | an absent, null or non-numeric token gives no latency (and only those do); an integer literal gives itself; any other number gives its truncation toward zero |
| `TuiApi.IntDecodeAgreesWithFloat` | tui/api.go:25-33 | an integer literal decodes as a float too, and truncating that gives the same integer, so trying int first loses nothing |
| `TuiApi.LatencyMagnitude` | tui/api.go:29-33 | a latency parsed from a fractional number is never further from zero than that number |
| `TuiApi.NormalizeStatus` | tui/api.go:55-58 | the normalised status is "ok" or "error", and "ok" exactly when the raw status is exactly "ok" |
| `TuiApi.NormalizeEntry` | tui/api.go:55-65 | id, name and URL are copied, latency is parsed, status is forced to "ok" or "error" |
| `TuiApi.NormalizeAll` | tui/api.go:53-66 | the normalised list has the raw list's length and order, with entry i the normalisation of record i |
| `TuiApi.Normalize` | tui/api.go:53-66 | the array-filling loop produces an array of the raw list's length equal to the normalised list |
| `TuiApi.FetchServices` | tui/api.go:37-68 | the result is an error with no entries exactly on a transport error, a status other than 200 ("API returned c", checked before the body) or an undecodable body; otherwise the normalised list; the client ID is never set |
| `TuiApi.FetchedStatusesNormalized` | tui/api.go:53-67 | every entry the client hands the state machine has status "ok" or "error" |
| `TuiApi.AddService` | tui/api.go:71-84 | adding succeeds exactly on status 200 or 201; a transport error keeps its text, another status gives "API returned c"; the client ID is never set |
| `TuiView.TableLayout` | tui/view.go:13-45 | name + URL widths + 23 fixed columns equal max(width, 50); the name width is 40 % of the remainder (rounded down), at least 10, and the URL width at least 17, so the fallback branches are unreachable |
| `TuiView.TableLayoutMonotone` | tui/view.go:26-45 | a wider terminal never narrows either column |
| `TuiView.StatusLabel` | tui/view.go:107-110 | the status cell is "OK" exactly when the status is "ok", otherwise "ERROR" |
| `TuiView.RowOf` | tui/view.go:102-119 | a row carries the entry's id, name and URL, its status label and style, and its latency cell |
| `TuiView.MaxRows` | tui/view.go:78-94 | an unknown height counts as 1000; the table fits max(1, height − 8) rows |
| `TuiView.ServiceTableShape` | tui/view.go:73-125 | the table is the header, then the first min(n, maxRows) entries in order, then "… k more" with k = n − maxRows exactly when n > maxRows, so shown plus hidden rows is n |
| `TuiView.RenderServiceTable` | tui/view.go:73-125 | the table-building loop yields exactly the specified table |
| `TuiView.RenderPrecedence` | tui/view.go:47-71 | quitting gives exactly "Goodbye.\n"; otherwise the form when adding; otherwise the error block when there is an error; otherwise the hint when there are no entries; otherwise the table; each in both directions, with the title, help line, hint text, error text, form inputs and table lines each frame carries |
| `TuiFlows.StartFetches` | tui/model.go:79-81 | the program starts by fetching with the stored client ID |
| `TuiFlows.FirstFetchOfTwo` | tui/model.go:166-182 | a first successful fetch of two records shows "2 service(s)", holds the normalised records in order and polls again in 2 s |
| `TuiFlows.FetchCarryingClientId` | tui/model.go:167-170 | a fetch result carrying "abc" makes "abc" current, writes it once, and the next tick's fetch uses it |
| `TuiFlows.FailedFetch` | tui/model.go:166-182 | any failed fetch in list mode gives a status starting "Error: ", empties the list, waits 5 s and renders the error block |
| `TuiFlows.OpenThenEscape` | tui/model.go:98-99 | "a" then Esc from a valid list model returns exactly to that model, writes nothing and issues only Blink and no-op |
| `TuiFlows.SubmitThenRefetch` | tui/model.go:104-110 | submitting "API" and "https://x/health" issues AddService with them; whatever the add outcome, the next command is a Fetch, and the status reports success exactly on 200 or 201 |
| `TuiFlows.QuitSaysGoodbye` | tui/view.go:48-50 | after quitting from the list the frame is exactly "Goodbye.\n" |
| `Legacy.Truncate` | main.go:172-177 | a string of at most max bytes is returned unchanged; a longer one becomes its first max − 1 bytes followed by the 3-byte "…", which is max + 2 bytes |
| `Legacy.TruncateIdempotent` | main.go:172-177 | truncating a truncated string changes nothing |
| `Legacy.TruncateKeepsPrefix` | main.go:172-177 | the first max − 1 bytes of the input survive truncation |
| `Legacy.InitialModel` | main.go:67-74 | the initial model has status "Connecting…", no entries, no error and is not quitting |
| `Legacy.UpdateServices` | main.go:114-122 | a fetch result replaces entries and error, sets "Error: …" or "<n> service(s)", and always issues a 2 s tick |
| `Legacy.OnlyTwoSecondTicks` | main.go:100-127 | a tick is scheduled exactly on a fetch result, and always for 2 s |
| `Legacy.UpdateKeys` | main.go:102-109 | "q"/"ctrl+c" set quitting and issue Quit, "ctrl+z" issues Suspend, other keys are no-ops |
| `Legacy.UpdateResizeAndTick` | main.go:110-113 | a resize changes only width and height; a tick issues a fetch and changes nothing |
| `Legacy.FetchServices` | main.go:80-98 | an error with no entries exactly on a transport error, a status other than 200 ("API returned c") or an undecodable body, a transport or decode error keeping its own text; otherwise the decoded list as is |
| `Legacy.View` | main.go:129-170 | quitting gives exactly "Goodbye.\n"; otherwise the hint exactly when there are no entries and no error, else the error block if any, a header and one row per entry in order (truncated to 16 and 31 bytes) |

## Left out

- Network I/O (`http.Get`, `http.Post`, response bodies) and JSON decoding itself. The model starts from a classified response: transport error, or status code and a decoded or undecodable body. The JSON request body `{"name","url"}` of the POST is not modelled.
- TuiApi.ParseLatencyMs: the token classification done by the JSON decoder is an input, and float64 behaviour of `int(f)` is not modelled. Rounding, NaN and values beyond 64-bit range are out; the number is an exact real.
- Integer width: ids, latencies, widths and heights are unbounded. `TuiView.TableLayout` does not model the 64-bit overflow of `remaining * 4` for widths near 2^63.
- `main()` of both programs: environment lookup, log-file setup and the Bubble Tea runtime. Commands are values. Timers, asynchronous completion order and out-of-order results are not modelled.
- tui/client_id.go is not part of this model. Its file-system access and the `strings.TrimSpace` inside `WriteClientID` are out; a write is recorded by the raw ID that model.go passes.
- tui/styles.go and every lipgloss `Render` call: frames are structure, not ANSI strings.
- The textinput library. Per-key editing is the `edit` parameter, Focus/Blur are a flag, and `textinput.Blink` is a command token. `View()` of an input is represented by the input itself. The editor sees only the buffer and the key, so the cursor position, and the widget ignoring keys while unfocused, are not modelled.
- `runewidth.Truncate` and `FillRight`, and `fmt` padding (`%-*s`, `%-4d`): the table keeps the column widths and the untruncated cells. Nothing is proved about rendered string widths.
- Formula/pulse.rb: build recipe, no logic.
