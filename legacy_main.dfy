/**
 * The older standalone Pulse client (main.go): its own list-only model, a
 * 2-second poll whatever the outcome, a view that always lists the entries it
 * holds, and a byte-based `truncate`.
 */
module Legacy {
  import opened Wrappers
  import Format

  /** Go strings are byte strings; `len` and slicing count bytes. */
  newtype byte = x: int | 0 <= x < 256

  type Bytes = seq<byte>

  /** "…" (U+2026) in UTF-8. */
  const Ellipsis: Bytes := [0xE2, 0x80, 0xA6]

  /**
   * truncate(s, max): `s` when it has at most `max` bytes, else its first
   * `max - 1` bytes followed by "…". The result is then `max + 2` bytes long,
   * and the cut may fall inside a multi-byte character. Go would panic on
   * `max < 1`; both call sites pass 16 and 31.
   */
  function Truncate(s: Bytes, max: int): (r: Bytes)
    requires max >= 1
    ensures |s| <= max ==> r == s
    ensures |s| > max ==> |r| == max + 2 && r[..max - 1] == s[..max - 1] && r[max - 1..] == Ellipsis
  {
    if |s| <= max then s else s[..max - 1] + Ellipsis
  }

  /** Truncating a truncated string changes nothing more. */
  lemma TruncateIdempotent(s: Bytes, max: int)
    requires max >= 1
    ensures Truncate(Truncate(s, max), max) == Truncate(s, max)
  {
  }

  /** A truncated string keeps the original's first `max - 1` bytes exactly. */
  lemma TruncateKeepsPrefix(s: Bytes, max: int, i: int)
    requires max >= 1 && 0 <= i < max - 1 && i < |s|
    ensures Truncate(s, max)[i] == s[i]
  {
  }

  datatype Entry = Entry(id: int, name: Bytes, url: Bytes, latencyMs: Option<int>)

  datatype Model = Model(
    apiUrl: string,
    title: string,
    status: string,
    entries: seq<Entry>,
    err: Option<string>,
    width: int,
    height: int,
    quitting: bool)

  datatype Msg =
    | Key(key: string)
    | WindowSize(width: int, height: int)
    | Services(entries: seq<Entry>, err: Option<string>)
    | TickMsg
    | OtherMsg

  datatype Cmd = NoCmd | Quit | Suspend | Tick(seconds: nat) | Fetch(apiUrl: string)

  datatype Step = Step(model: Model, cmd: Cmd)

  /** initialModel: "Connecting…", no entries, no error, not quitting. */
  function InitialModel(apiUrl: string): (m: Model)
    ensures m.apiUrl == apiUrl && m.title == "Pulse TUI" && m.status == "Connecting…"
    ensures m.entries == [] && m.err.None? && !m.quitting
  {
    Model(apiUrl, "Pulse TUI", "Connecting…", [], None, 0, 0, false)
  }

  function Update(m: Model, msg: Msg): Step
  {
    match msg
    case Key(k) =>
      if k == "q" || k == "ctrl+c" then Step(m.(quitting := true), Quit)
      else if k == "ctrl+z" then Step(m, Suspend)
      else Step(m, NoCmd)
    case WindowSize(w, h) => Step(m.(width := w, height := h), NoCmd)
    case Services(entries, err) =>
      var status := if err.Some? then "Error: " + err.value
                    else Format.IntToString(|entries|) + " service(s)";
      Step(m.(entries := entries, err := err, status := status), Tick(2))
    case TickMsg => Step(m, Fetch(m.apiUrl))
    case OtherMsg => Step(m, NoCmd)
  }

  /** A fetch result replaces entries and error and always schedules the next poll in 2 s. */
  lemma UpdateServices(m: Model, entries: seq<Entry>, err: Option<string>)
    ensures var s := Update(m, Services(entries, err));
      && s.model.entries == entries && s.model.err == err && s.cmd == Tick(2)
      && (err.Some? ==> s.model.status == "Error: " + err.value)
      && (err.None? ==> s.model.status == Format.IntToString(|entries|) + " service(s)")
      && s.model.(entries := m.entries, err := m.err, status := m.status) == m
  {
  }

  /** There is no backoff: every timer this program ever sets is 2 s. */
  lemma OnlyTwoSecondTicks(m: Model, msg: Msg)
    ensures Update(m, msg).cmd.Tick? ==> Update(m, msg).cmd.seconds == 2
    ensures Update(m, msg).cmd.Tick? <==> msg.Services?
  {
  }

  lemma UpdateKeys(m: Model, key: string)
    ensures var s := Update(m, Key(key));
      && (key == "q" || key == "ctrl+c" ==> s == Step(m.(quitting := true), Quit))
      && (key == "ctrl+z" ==> s == Step(m, Suspend))
      && (key !in {"q", "ctrl+c", "ctrl+z"} ==> s == Step(m, NoCmd))
  {
  }

  lemma UpdateResizeAndTick(m: Model, w: int, h: int)
    ensures Update(m, WindowSize(w, h)) == Step(m.(width := w, height := h), NoCmd)
    ensures Update(m, TickMsg) == Step(m, Fetch(m.apiUrl))
  {
  }

  /** What came back from GET /services; this program decodes entries directly. */
  datatype FetchResponse = FetchTransportError(message: string) | FetchResponse(code: int, body: Body)

  datatype Body = Decoded(entries: seq<Entry>) | Undecodable(message: string)

  /** fetchServices: any failure gives an error and no entries; success hands over the decoded list as is. */
  function FetchServices(resp: FetchResponse): (msg: Msg)
    ensures msg.Services?
    ensures msg.err.None? <==> resp.FetchResponse? && resp.code == 200 && resp.body.Decoded?
    ensures msg.err.Some? ==> msg.entries == []
    ensures resp.FetchTransportError? ==> msg.err == Some(resp.message)
    ensures resp.FetchResponse? && resp.code != 200 ==> msg.err == Some("API returned " + Format.IntToString(resp.code))
    ensures resp.FetchResponse? && resp.code == 200 && resp.body.Undecodable? ==> msg.err == Some(resp.body.message)
    ensures msg.err.None? ==> msg.entries == resp.body.entries
  {
    match resp
    case FetchTransportError(e) => Services([], Some(e))
    case FetchResponse(code, body) =>
      if code != 200 then Services([], Some("API returned " + Format.IntToString(code)))
      else match body
        case Undecodable(e) => Services([], Some(e))
        case Decoded(entries) => Services(entries, None)
  }

  /** A block of the list screen's body. */
  datatype Piece =
    | ErrorBlock(message: string)     // the error in red, then a blank line
    | Hint(text: string)
    | HeaderLine(text: string)
    | Row(id: int, name: Bytes, url: Bytes, latency: string)   // "%-4d %-17s %-32s %s\n"

  datatype Frame = Plain(text: string) | Screen(title: string, status: string, body: seq<Piece>, help: string)

  const NoServicesHint := "No services. Add services from the Elixir app (Pulse.Monitor.add_service/1).\n"
  const HeaderText := "ID   Name              URL                              Latency"
  const HelpText := "q: quit · ctrl+c: quit · ctrl+z: suspend"

  function RowOf(e: Entry): Piece
  {
    Row(e.id, Truncate(e.name, 16), Truncate(e.url, 31), Format.LatencyLabel(e.latencyMs))
  }

  /** One row per entry, in order. */
  function Rows(es: seq<Entry>): (rs: seq<Piece>)
    ensures |rs| == |es|
    ensures forall i :: 0 <= i < |es| ==> rs[i] == RowOf(es[i])
  {
    seq(|es|, i requires 0 <= i < |es| => RowOf(es[i]))
  }

  lemma RowsSnoc(es: seq<Entry>, i: int)
    requires 0 <= i < |es|
    ensures Rows(es[..i + 1]) == Rows(es[..i]) + [RowOf(es[i])]
  {
  }

  /** The error block that heads the body when there is an error. */
  function Lead(m: Model): seq<Piece>
  {
    if m.err.Some? then [ErrorBlock(m.err.value)] else []
  }

  /**
   * View: "Goodbye.\n" when quitting; otherwise the error (if any), then the
   * hint exactly when there are no entries and no error, else a header and one
   * row per entry in order, also when an error is shown above them.
   */
  method View(m: Model) returns (f: Frame)
    ensures m.quitting <==> f == Plain("Goodbye.\n")
    ensures !m.quitting ==> f.Screen? && f.title == "◆ " + m.title && f.status == "● " + m.status && f.help == HelpText
    ensures !m.quitting && |m.entries| == 0 && m.err.None? ==> f.body == [Hint(NoServicesHint)]
    ensures !m.quitting && (|m.entries| > 0 || m.err.Some?) ==>
      f.body == Lead(m) + [HeaderLine(HeaderText)] + Rows(m.entries)
  {
    if m.quitting {
      return Plain("Goodbye.\n");
    }
    var body: seq<Piece> := [];
    if m.err.Some? {
      body := [ErrorBlock(m.err.value)];
    }
    assert body == Lead(m);
    if |m.entries| == 0 && m.err.None? {
      body := body + [Hint(NoServicesHint)];
    } else {
      body := body + [HeaderLine(HeaderText)];
      for i := 0 to |m.entries|
        invariant body == Lead(m) + [HeaderLine(HeaderText)] + Rows(m.entries[..i])
      {
        var e := m.entries[i];
        var lat := "—";
        if e.latencyMs.Some? {
          lat := Format.IntToString(e.latencyMs.value) + " ms";
        }
        var row := Row(e.id, Truncate(e.name, 16), Truncate(e.url, 31), lat);
        assert row == RowOf(e);
        RowsSnoc(m.entries, i);
        ghost var done := Rows(m.entries[..i]);
        body := body + [row];
        assert body == Lead(m) + [HeaderLine(HeaderText)] + (done + [row]);
      }
      assert m.entries[..|m.entries|] == m.entries;
    }
    f := Screen("◆ " + m.title, "● " + m.status, body, HelpText);
  }
}
