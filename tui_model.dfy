/**
 * The Pulse TUI's state machine: a model value, the messages folded into it
 * and the single command each fold returns. The Go methods work on a value
 * copy of `model` and return it, so every operation here is a function from
 * the old model (and a message) to the new one.
 */
module TuiModel {
  import opened Wrappers
  import Format

  /** One monitored service, after the API client has normalised it. */
  datatype Entry = Entry(id: int, name: string, url: string, latencyMs: Option<int>, status: string)

  /**
   * A bubbles textinput, reduced to what the state machine touches: the
   * placeholder it was created with, the text typed so far and whether it
   * has the keyboard focus (textinput.New starts unfocused).
   */
  datatype Input = Input(placeholder: string, value: string, focused: bool)

  /** `Reset` empties the text; the focus flag is left as it was. */
  function Reset(i: Input): (r: Input)
    ensures r.value == "" && r.placeholder == i.placeholder && r.focused == i.focused
  {
    i.(value := "")
  }

  function Focus(i: Input): Input { i.(focused := true) }

  function Blur(i: Input): Input { i.(focused := false) }

  datatype Model = Model(
    apiUrl: string,
    clientId: string,
    title: string,
    status: string,
    entries: seq<Entry>,
    err: Option<string>,
    width: int,
    height: int,
    quitting: bool,
    adding: bool,
    nameInput: Input,
    urlInput: Input,
    focus: int)

  /** What the Bubble Tea runtime may deliver to Update. */
  datatype Msg =
    | Key(key: string)                 // tea.KeyMsg, by its String() name: "esc", "enter", "q", …
    | WindowSize(width: int, height: int)
    | Services(entries: seq<Entry>, err: Option<string>, clientId: string)
    | TickMsg
    | AddServiceDone(err: Option<string>, clientId: string)
    | OtherMsg                         // any other message type (the text input's blink messages, …)

  /** The tea.Cmd returned with the new model, as a value. */
  datatype Cmd =
    | NoCmd
    | Quit
    | Suspend
    | Blink
    | Tick(seconds: nat)
    | Fetch(apiUrl: string, clientId: string)
    | AddService(apiUrl: string, clientId: string, name: string, url: string)

  /**
   * The text input's own key handling (insert, delete, cursor moves, paste):
   * given the buffer and the key it returns the new buffer and the command
   * the widget asks for. It is a parameter because the library is not modelled.
   */
  type Editor = (string, string) -> (string, Cmd)

  /**
   * The result of one Update: the new model, the identifiers written to the
   * client-ID file during the call (each WriteClientID call, in order), and
   * the command.
   */
  datatype Step = Step(model: Model, persisted: seq<string>, cmd: Cmd)

  function NewInput(placeholder: string): (i: Input)
    ensures i.placeholder == placeholder && i.value == "" && !i.focused
  {
    Input(placeholder, "", false)
  }

  /** The initial model: list mode, no entries, "Connecting…". */
  function NewModel(apiUrl: string, clientId: string): (m: Model)
    ensures m.apiUrl == apiUrl && m.clientId == clientId
    ensures m.title == "Pulse TUI" && m.status == "Connecting…"
    ensures m.entries == [] && m.err.None? && !m.quitting && !m.adding && m.focus == 0
    ensures m.nameInput.value == "" && m.urlInput.value == ""
    ensures Valid(m)
  {
    Model(apiUrl, clientId, "Pulse TUI", "Connecting…", [], None, 0, 0, false, false,
          NewInput("e.g. API"), NewInput("https://example.com/health"), 0)
  }

  /** The command the program starts with: fetch the list once. */
  function Init(m: Model): Cmd
  {
    Fetch(m.apiUrl, m.clientId)
  }

  /**
   * The invariant every reachable model keeps: the focus is 0 or 1; in list
   * mode the focus is 0, both buffers are empty and neither has the keyboard;
   * in the form exactly the focused buffer has the keyboard.
   */
  predicate Valid(m: Model) {
    && (m.focus == 0 || m.focus == 1)
    && (!m.adding ==> m.focus == 0 && m.nameInput.value == "" && m.urlInput.value == ""
                      && !m.nameInput.focused && !m.urlInput.focused)
    && (m.adding ==> m.nameInput.focused == (m.focus == 0) && m.urlInput.focused == (m.focus == 1))
  }

  /** Leave the form: list mode, both buffers emptied and blurred, focus 0. */
  function ResetForm(m: Model): (r: Model)
    ensures !r.adding && r.focus == 0
    ensures r.nameInput.value == "" && r.urlInput.value == ""
    ensures !r.nameInput.focused && !r.urlInput.focused
    ensures r.nameInput.placeholder == m.nameInput.placeholder && r.urlInput.placeholder == m.urlInput.placeholder
    ensures r.(adding := m.adding, focus := m.focus, nameInput := m.nameInput, urlInput := m.urlInput) == m
    ensures Valid(r)
  {
    m.(adding := false,
       nameInput := Blur(Reset(m.nameInput)),
       urlInput := Blur(Reset(m.urlInput)),
       focus := 0)
  }

  /** Move the keyboard from the name field to the URL field. */
  function FocusUrl(m: Model): (r: Model)
    ensures r.focus == 1 && !r.nameInput.focused && r.urlInput.focused
    ensures r.nameInput.value == m.nameInput.value && r.urlInput.value == m.urlInput.value
    ensures r.nameInput == m.nameInput.(focused := false) && r.urlInput == m.urlInput.(focused := true)
    ensures r.(focus := m.focus, nameInput := m.nameInput, urlInput := m.urlInput) == m
    ensures m.adding ==> Valid(r)
  {
    m.(focus := 1, nameInput := Blur(m.nameInput), urlInput := Focus(m.urlInput))
  }

  /** The form has the keyboard while `adding`; the list otherwise. */
  function Update(m: Model, msg: Msg, edit: Editor): Step
  {
    if m.adding then UpdateForm(m, msg, edit) else UpdateList(m, msg)
  }

  function UpdateForm(m: Model, msg: Msg, edit: Editor): Step
  {
    match msg
    case Key(k) =>
      if k == "esc" then Step(ResetForm(m), [], NoCmd)
      else if k == "enter" then
        if m.focus == 0 then Step(FocusUrl(m), [], Blink)
        else
          var name, url := m.nameInput.value, m.urlInput.value;
          var m' := ResetForm(m);
          if name == "" || url == "" then Step(m'.(status := "Name and URL required"), [], NoCmd)
          else Step(m', [], AddService(m'.apiUrl, m'.clientId, name, url))
      else if k == "tab" then
        if m.focus == 0 then Step(FocusUrl(m), [], Blink) else Step(m, [], NoCmd)
      else if m.focus == 0 then
        var (v, c) := edit(m.nameInput.value, k);
        Step(m.(nameInput := m.nameInput.(value := v)), [], c)
      else
        var (v, c) := edit(m.urlInput.value, k);
        Step(m.(urlInput := m.urlInput.(value := v)), [], c)
    case _ => Step(m, [], NoCmd)
  }

  /** Adopt a non-empty client ID from a result, writing it to the ID file. */
  function AdoptClientId(m: Model, id: string): (Model, seq<string>)
  {
    if id != "" then (m.(clientId := id), [id]) else (m, [])
  }

  function UpdateList(m: Model, msg: Msg): Step
  {
    match msg
    case Key(k) =>
      if k == "q" || k == "ctrl+c" then Step(m.(quitting := true), [], Quit)
      else if k == "ctrl+z" then Step(m, [], Suspend)
      else if k == "a" then
        Step(m.(adding := true, focus := 0, nameInput := Focus(m.nameInput), urlInput := Blur(m.urlInput)), [], Blink)
      else Step(m, [], NoCmd)
    case WindowSize(w, h) => Step(m.(width := w, height := h), [], NoCmd)
    case Services(entries, err, id) =>
      var (m1, written) := AdoptClientId(m, id);
      var status := if err.Some? then "Error: " + err.value
                    else Format.IntToString(|entries|) + " service(s)";
      var seconds := if err.Some? then 5 else 2;
      Step(m1.(entries := entries, err := err, status := status), written, Tick(seconds))
    case AddServiceDone(err, id) =>
      var (m1, written) := AdoptClientId(m, id);
      var status := if err.Some? then "Add failed: " + err.value else "Service added. Refreshing…";
      Step(m1.(status := status), written, Fetch(m1.apiUrl, m1.clientId))
    case TickMsg => Step(m, [], Fetch(m.apiUrl, m.clientId))
    case OtherMsg => Step(m, [], NoCmd)
  }

  /** Fold a whole sequence of messages; collect every write and command in order. */
  function Run(m: Model, msgs: seq<Msg>, edit: Editor): (r: (Model, seq<string>, seq<Cmd>))
    ensures |r.2| == |msgs|
    decreases |msgs|
  {
    if msgs == [] then (m, [], [])
    else
      var s := Update(m, msgs[0], edit);
      var (m', ws, cs) := Run(s.model, msgs[1..], edit);
      (m', s.persisted + ws, [s.cmd] + cs)
  }

  // ---------------------------------------------------------------------
  // The invariant

  lemma UpdatePreservesValid(m: Model, msg: Msg, edit: Editor)
    requires Valid(m)
    ensures Valid(Update(m, msg, edit).model)
  {
  }

  lemma {:induction false} RunPreservesValid(m: Model, msgs: seq<Msg>, edit: Editor)
    requires Valid(m)
    ensures Valid(Run(m, msgs, edit).0)
    decreases |msgs|
  {
    if msgs != [] {
      UpdatePreservesValid(m, msgs[0], edit);
      RunPreservesValid(Update(m, msgs[0], edit).model, msgs[1..], edit);
    }
  }

  /** Every model reachable from the start by any messages keeps the invariant. */
  lemma ReachableValid(apiUrl: string, clientId: string, msgs: seq<Msg>, edit: Editor)
    ensures Valid(Run(NewModel(apiUrl, clientId), msgs, edit).0)
  {
    RunPreservesValid(NewModel(apiUrl, clientId), msgs, edit);
  }

  // ---------------------------------------------------------------------
  // The form

  /** While the form is open every message that is not a key is dropped. */
  lemma FormDropsNonKeys(m: Model, msg: Msg, edit: Editor)
    requires m.adding && !msg.Key?
    ensures Update(m, msg, edit) == Step(m, [], NoCmd)
  {
  }

  /**
   * So any run of non-key messages while the form is open, ticks and fetch
   * results among them, changes nothing and issues nothing: a poll that
   * arrives while the form is open is lost.
   */
  lemma {:induction false} FormLosesPolling(m: Model, msgs: seq<Msg>, edit: Editor)
    requires m.adding
    requires forall i :: 0 <= i < |msgs| ==> !msgs[i].Key?
    ensures var r := Run(m, msgs, edit);
      r.0 == m && r.1 == [] && forall i :: 0 <= i < |msgs| ==> r.2[i] == NoCmd
    decreases |msgs|
  {
    if msgs != [] {
      FormDropsNonKeys(m, msgs[0], edit);
      forall i | 0 <= i < |msgs| - 1 ensures !msgs[1..][i].Key? {
        assert msgs[1..][i] == msgs[i + 1];
      }
      FormLosesPolling(m, msgs[1..], edit);
    }
  }

  lemma FormEscape(m: Model, edit: Editor)
    requires m.adding
    ensures var s := Update(m, Key("esc"), edit);
      && !s.model.adding && s.model.focus == 0
      && s.model.nameInput.value == "" && s.model.urlInput.value == ""
      && s.model.status == m.status && s.model.entries == m.entries && s.model.clientId == m.clientId
      && s.model == ResetForm(m)
      && s.persisted == [] && s.cmd == NoCmd
  {
  }

  /**
   * Leaving the form does not restart polling: a tick or fetch result that
   * arrived while the form was open is dropped, and Esc then issues nothing,
   * so no further poll is ever scheduled from this run.
   */
  lemma PollLostInForm(m: Model, msg: Msg, edit: Editor)
    requires m.adding && !msg.Key?
    ensures Run(m, [msg, Key("esc")], edit) == (ResetForm(m), [], [NoCmd, NoCmd])
  {
    FormDropsNonKeys(m, msg, edit);
    FormEscape(m, edit);
    var s := Update(m, Key("esc"), edit);
    var tail := Run(s.model, [], edit);
    assert [Key("esc")][1..] == [];
    assert Run(m, [Key("esc")], edit) == (tail.0, s.persisted + tail.1, [s.cmd] + tail.2);
    var rest := Run(m, [Key("esc")], edit);
    assert rest.0 == ResetForm(m) && rest.1 == [] && rest.2 == [NoCmd];
    assert [msg, Key("esc")][1..] == [Key("esc")];
    assert Run(m, [msg, Key("esc")], edit) == (rest.0, [] + rest.1, [NoCmd] + rest.2);
    assert [] + rest.1 == [] && [NoCmd] + rest.2 == [NoCmd, NoCmd];
  }

  /** Enter or Tab on the name field moves to the URL field and stays in the form. */
  lemma FormAdvance(m: Model, key: string, edit: Editor)
    requires m.adding && m.focus == 0 && (key == "enter" || key == "tab")
    ensures var s := Update(m, Key(key), edit);
      && s.model.adding && s.model.focus == 1 && s.model.urlInput.focused && !s.model.nameInput.focused
      && s.model.nameInput.value == m.nameInput.value && s.model.urlInput.value == m.urlInput.value
      && s.model.status == m.status && s.model == FocusUrl(m)
      && s.persisted == [] && s.cmd == Blink
  {
  }

  lemma FormTabOnUrl(m: Model, edit: Editor)
    requires m.adding && m.focus == 1
    ensures Update(m, Key("tab"), edit) == Step(m, [], NoCmd)
  {
  }

  /**
   * Enter on the URL field always leaves the form with empty buffers.
   * With an empty name or URL it only sets a validation message; otherwise it
   * asks to add exactly the captured name and URL under the current client ID.
   */
  lemma FormSubmit(m: Model, edit: Editor)
    requires m.adding && m.focus == 1
    ensures var s := Update(m, Key("enter"), edit);
      var name, url := m.nameInput.value, m.urlInput.value;
      && !s.model.adding && s.model.focus == 0
      && s.model.nameInput.value == "" && s.model.urlInput.value == ""
      && s.persisted == []
      && s.model.entries == m.entries && s.model.clientId == m.clientId
      && (name == "" || url == "" ==>
            s.model == ResetForm(m).(status := "Name and URL required") && s.cmd == NoCmd)
      && (name != "" && url != "" ==>
            s.model == ResetForm(m) && s.cmd == AddService(m.apiUrl, m.clientId, name, url))
  {
  }

  /** Any other key goes to the focused buffer, and only that buffer changes. */
  lemma FormEdit(m: Model, key: string, edit: Editor)
    requires Valid(m) && m.adding && key !in {"esc", "enter", "tab"}
    ensures var s := Update(m, Key(key), edit);
      var target := if m.focus == 0 then m.nameInput.value else m.urlInput.value;
      && s.cmd == edit(target, key).1 && s.persisted == []
      && (m.focus == 0 ==> s.model == m.(nameInput := m.nameInput.(value := edit(target, key).0)))
      && (m.focus == 1 ==> s.model == m.(urlInput := m.urlInput.(value := edit(target, key).0)))
  {
  }

  // ---------------------------------------------------------------------
  // The list

  lemma ListQuit(m: Model, key: string, edit: Editor)
    requires !m.adding && (key == "q" || key == "ctrl+c")
    ensures Update(m, Key(key), edit) == Step(m.(quitting := true), [], Quit)
  {
  }

  lemma ListSuspend(m: Model, edit: Editor)
    requires !m.adding
    ensures Update(m, Key("ctrl+z"), edit) == Step(m, [], Suspend)
  {
  }

  /** "a" opens the form with the keyboard on the name field; from a valid model the buffers are empty. */
  lemma ListOpenForm(m: Model, edit: Editor)
    requires Valid(m) && !m.adding
    ensures var s := Update(m, Key("a"), edit);
      && s.model.adding && s.model.focus == 0 && s.model.nameInput.focused && !s.model.urlInput.focused
      && s.model.nameInput.value == "" && s.model.urlInput.value == ""
      && s.model.(adding := m.adding, focus := m.focus, nameInput := m.nameInput, urlInput := m.urlInput) == m
      && s.persisted == [] && s.cmd == Blink
  {
  }

  lemma ListOtherKey(m: Model, key: string, edit: Editor)
    requires !m.adding && key !in {"q", "ctrl+c", "ctrl+z", "a"}
    ensures Update(m, Key(key), edit) == Step(m, [], NoCmd)
  {
  }

  lemma ListResize(m: Model, w: int, h: int, edit: Editor)
    requires !m.adding
    ensures Update(m, WindowSize(w, h), edit) == Step(m.(width := w, height := h), [], NoCmd)
  {
  }

  lemma ListTick(m: Model, edit: Editor)
    requires !m.adding
    ensures Update(m, TickMsg, edit) == Step(m, [], Fetch(m.apiUrl, m.clientId))
  {
  }

  /**
   * A fetch result replaces the entries and the error with the message's,
   * whatever they were (a failed fetch carries no entries, so the list is
   * emptied), and schedules the next poll: 2 s after success, 5 s after failure.
   */
  lemma ListServices(m: Model, entries: seq<Entry>, err: Option<string>, id: string, edit: Editor)
    requires !m.adding
    ensures var s := Update(m, Services(entries, err, id), edit);
      && s.model.entries == entries && s.model.err == err
      && (err.Some? ==> s.model.status == "Error: " + err.value && s.cmd == Tick(5))
      && (err.None? ==> s.model.status == Format.IntToString(|entries|) + " service(s)" && s.cmd == Tick(2))
      && s.model.(entries := m.entries, err := m.err, status := m.status, clientId := m.clientId) == m
  {
  }

  /** Either result adopts a non-empty client ID and writes it exactly once; an empty one changes nothing. */
  lemma ListAdoptsClientId(m: Model, msg: Msg, edit: Editor)
    requires !m.adding && (msg.Services? || msg.AddServiceDone?)
    ensures var s := Update(m, msg, edit);
      && (msg.clientId != "" ==> s.model.clientId == msg.clientId && s.persisted == [msg.clientId])
      && (msg.clientId == "" ==> s.model.clientId == m.clientId && s.persisted == [])
  {
  }

  /** An add result, success or failure, triggers an immediate fetch under the updated client ID. */
  lemma ListAddDone(m: Model, err: Option<string>, id: string, edit: Editor)
    requires !m.adding
    ensures var s := Update(m, AddServiceDone(err, id), edit);
      && s.cmd == Fetch(m.apiUrl, s.model.clientId)
      && (err.Some? ==> s.model.status == "Add failed: " + err.value)
      && (err.None? ==> s.model.status == "Service added. Refreshing…")
      && s.model.(status := m.status, clientId := m.clientId) == m
  {
  }

  /**
   * In list mode a fetch is issued exactly for a tick or an add result, and a
   * tick is scheduled exactly for a fetch result: polling only continues
   * while one of these is in flight.
   */
  lemma ListPollingChain(m: Model, msg: Msg, edit: Editor)
    requires !m.adding
    ensures Update(m, msg, edit).cmd.Fetch? <==> msg.TickMsg? || msg.AddServiceDone?
    ensures Update(m, msg, edit).cmd.Tick? <==> msg.Services?
  {
  }

  /** No message other than a services or add result ever writes the client-ID file. */
  lemma PersistOnlyFromResults(m: Model, msg: Msg, edit: Editor)
    requires Update(m, msg, edit).persisted != []
    ensures !m.adding && (msg.Services? || msg.AddServiceDone?) && msg.clientId != ""
  {
  }
}
