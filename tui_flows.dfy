/**
 * End-to-end behaviour of the TUI: the state machine fed with what the API
 * client produces, and what the renderer then shows.
 */
module TuiFlows {
  import opened Wrappers
  import Format
  import opened TuiModel
  import Api = TuiApi
  import View = TuiView

  /** The program starts by fetching with the stored client ID. */
  lemma StartFetches(apiUrl: string, clientId: string)
    ensures Init(NewModel(apiUrl, clientId)) == Fetch(apiUrl, clientId)
  {
  }

  /**
   * A first successful fetch of two records: "2 service(s)", the normalised
   * list in the order received, the next poll in 2 s. The API client never
   * fills the client-ID field, so nothing is written and the ID stays as loaded.
   */
  lemma FirstFetchOfTwo(apiUrl: string, clientId: string, raw: seq<Api.RawEntry>, edit: Editor)
    requires |raw| == 2
    ensures var s := Update(NewModel(apiUrl, clientId), Api.FetchServices(Api.FetchResponse(200, Api.Decoded(raw))), edit);
      && s.model.status == "2 service(s)"
      && s.model.entries == Api.NormalizeAll(raw)
      && s.model.clientId == clientId && s.persisted == []
      && s.cmd == Tick(2)
  {
    assert Format.IntToString(2) == "2";
  }

  /** A services message that does carry an ID ("abc") makes it current and writes it once; the next poll fetches with it. */
  lemma FetchCarryingClientId(apiUrl: string, entries: seq<Entry>, edit: Editor)
    requires |entries| == 2
    ensures var s := Update(NewModel(apiUrl, ""), Services(entries, None, "abc"), edit);
      && s.model.status == "2 service(s)" && s.model.clientId == "abc" && s.persisted == ["abc"]
      && Init(s.model) == Fetch(apiUrl, "abc")
      && Update(s.model, TickMsg, edit).cmd == Fetch(apiUrl, "abc")
  {
    assert Format.IntToString(2) == "2";
  }

  /**
   * A failed fetch in list mode: the status starts with "Error:", the next
   * poll waits 5 s, and the list is emptied (the message carries no entries),
   * so the screen shows the error block instead of a table.
   */
  lemma FailedFetch(m: Model, resp: Api.FetchResponse, edit: Editor)
    requires !m.adding && !m.quitting
    requires !(resp.FetchResponse? && resp.code == 200 && resp.body.Decoded?)
    ensures var s := Update(m, Api.FetchServices(resp), edit);
      && |s.model.status| >= 7 && s.model.status[..7] == "Error: "
      && s.model.entries == [] && s.model.err.Some?
      && s.cmd == Tick(5)
      && View.Render(s.model).Screen? && View.Render(s.model).body.ErrorBlock?
  {
  }

  /** Opening the form and pressing Esc at once returns exactly to the model it started from, with no request. */
  lemma OpenThenEscape(m: Model, edit: Editor)
    requires Valid(m) && !m.adding
    ensures var r := Run(m, [Key("a"), Key("esc")], edit);
      r.0 == m && r.1 == [] && r.2 == [Blink, NoCmd]
  {
    var s1 := Update(m, Key("a"), edit);
    var s2 := Update(s1.model, Key("esc"), edit);
    assert [Key("a"), Key("esc")][1..] == [Key("esc")];
    assert s2.model == m;
  }

  /**
   * Submitting "API" and "https://x/health" asks to add exactly those; when the
   * add comes back, whatever its outcome, the very next command is a fetch.
   */
  lemma SubmitThenRefetch(m: Model, resp: Api.AddResponse, edit: Editor)
    requires m.adding && m.focus == 1
    requires m.nameInput.value == "API" && m.urlInput.value == "https://x/health"
    ensures var s1 := Update(m, Key("enter"), edit);
      && s1.cmd == AddService(m.apiUrl, m.clientId, "API", "https://x/health")
      && !s1.model.adding
      && var s2 := Update(s1.model, Api.AddService(resp), edit);
         s2.cmd == Fetch(m.apiUrl, m.clientId)
         && (s2.model.status == "Service added. Refreshing…" <==> resp.AddResponse? && (resp.code == 200 || resp.code == 201))
  {
    FormSubmit(m, edit);
    var s1 := Update(m, Key("enter"), edit);
    var done := Api.AddService(resp);
    ListAddDone(s1.model, done.err, done.clientId, edit);
    var s2 := Update(s1.model, done, edit);
    if done.err.Some? {
      assert s2.model.status[0] == 'A';
    }
  }

  /** Quitting from the list draws exactly "Goodbye.\n". */
  lemma QuitSaysGoodbye(m: Model, key: string, edit: Editor)
    requires !m.adding && (key == "q" || key == "ctrl+c")
    ensures View.Render(Update(m, Key(key), edit).model) == View.Plain("Goodbye.\n")
  {
  }
}
