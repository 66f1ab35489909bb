/**
 * The TUI's API client, without the network: what `fetchServices` and
 * `addService` do with a response once it has arrived, and how a decoded
 * record becomes a `TuiModel.Entry`.
 */
module TuiApi {
  import opened Wrappers
  import Format
  import M = TuiModel

  /**
   * The raw `latency_ms` field as the JSON decoder hands it over: absent,
   * the literal null, a number that decodes as a Go int, a number that only
   * decodes as a float (fractional, an exponent, out of int range), or any
   * other JSON value (a string, a boolean, an object, …).
   */
  datatype LatencyToken = Empty | Null | IntLit(n: int) | NumLit(x: real) | Other

  /** One element of the decoded response array, before normalisation. */
  datatype RawEntry = RawEntry(id: int, name: string, url: string, latency: LatencyToken, status: string)

  /** Go's `int(f)` on a float inside int range: drop the fraction, rounding toward zero. */
  function TruncTowardZero(x: real): (r: int)
    ensures 0.0 <= x ==> 0 <= r && r as real <= x < r as real + 1.0
    ensures x < 0.0 ==> r <= 0 && r as real - 1.0 < x <= r as real
  {
    if x >= 0.0 then x.Floor else -((-x).Floor)
  }

  /** `json.Unmarshal` into an int: succeeds on integer literals only. */
  function DecodeInt(t: LatencyToken): Option<int>
  {
    match t
    case IntLit(n) => Some(n)
    case _ => None
  }

  /** `json.Unmarshal` into a float64: succeeds on every number. */
  function DecodeFloat(t: LatencyToken): Option<real>
  {
    match t
    case IntLit(n) => Some(n as real)
    case NumLit(x) => Some(x)
    case _ => None
  }

  /** parseLatencyMs: absent or null gives no latency; then try int, then float truncated; else none. */
  function ParseLatencyMs(t: LatencyToken): (r: Option<int>)
    ensures (t.Empty? || t.Null? || t.Other?) <==> r.None?
    ensures t.IntLit? ==> r == Some(t.n)
    ensures t.NumLit? ==> r == Some(TruncTowardZero(t.x))
  {
    if t.Empty? || t.Null? then None
    else match DecodeInt(t)
      case Some(n) => Some(n)
      case None =>
        match DecodeFloat(t)
        case Some(f) => Some(TruncTowardZero(f))
        case None => None
  }

  /** The two decodes never disagree on an integer, so trying int first loses nothing. */
  lemma IntDecodeAgreesWithFloat(n: int)
    ensures DecodeFloat(IntLit(n)).Some? && TruncTowardZero(DecodeFloat(IntLit(n)).value) == n
  {
  }

  /** A present latency is never further from zero than the number it came from. */
  lemma LatencyMagnitude(x: real)
    ensures var r := ParseLatencyMs(NumLit(x)).value;
      (if r < 0 then -r else r) as real <= (if x < 0.0 then -x else x)
  {
  }

  /** Any status other than exactly "ok" is treated as unhealthy. */
  function NormalizeStatus(s: string): (r: string)
    ensures r == "ok" || r == "error"
    ensures r == "ok" <==> s == "ok"
  {
    if s != "ok" then "error" else s
  }

  /** One record of `fetchServices`' loop: the fields copied, the latency parsed, the status forced. */
  function NormalizeEntry(r: RawEntry): (e: M.Entry)
    ensures e.id == r.id && e.name == r.name && e.url == r.url
    ensures e.latencyMs == ParseLatencyMs(r.latency)
    ensures e.status == "ok" || e.status == "error"
    ensures e.status == "ok" <==> r.status == "ok"
  {
    M.Entry(r.id, r.name, r.url, ParseLatencyMs(r.latency), NormalizeStatus(r.status))
  }

  /** The normalised list: the same length and order as the decoded one. */
  function NormalizeAll(raw: seq<RawEntry>): (es: seq<M.Entry>)
    ensures |es| == |raw|
    ensures forall i :: 0 <= i < |raw| ==> es[i] == NormalizeEntry(raw[i])
  {
    seq(|raw|, i requires 0 <= i < |raw| => NormalizeEntry(raw[i]))
  }

  /** The loop in `fetchServices` (tui/api.go): allocate the slice, then fill it index by index. */
  method Normalize(raw: seq<RawEntry>) returns (entries: array<M.Entry>)
    ensures entries.Length == |raw|
    ensures entries[..] == NormalizeAll(raw)
  {
    entries := new M.Entry[|raw|];
    var i := 0;
    while i < |raw|
      invariant 0 <= i <= |raw| && entries.Length == |raw|
      invariant forall j :: 0 <= j < i ==> entries[j] == NormalizeEntry(raw[j])
    {
      var r := raw[i];
      var status := r.status;
      if status != "ok" {
        status := "error";
      }
      entries[i] := M.Entry(r.id, r.name, r.url, ParseLatencyMs(r.latency), status);
      i := i + 1;
    }
  }

  /** What came back from GET /services. */
  datatype FetchResponse =
    | FetchTransportError(message: string)
    | FetchResponse(code: int, body: Body)

  /** The response body as the JSON decoder saw it. */
  datatype Body = Decoded(records: seq<RawEntry>) | Undecodable(message: string)

  /** The text of `fmt.Errorf("API returned %d", code)`. */
  function UnexpectedStatus(code: int): string
  {
    "API returned " + Format.IntToString(code)
  }

  /**
   * The message `fetchServices` returns: an error with no entries on a
   * transport failure, on any status but 200 (checked before the body is
   * read) or on a body that does not decode; otherwise the normalised list.
   * The client-ID field is never filled.
   */
  function FetchServices(resp: FetchResponse): (msg: M.Msg)
    ensures msg.Services? && msg.clientId == ""
    ensures msg.err.None? <==> resp.FetchResponse? && resp.code == 200 && resp.body.Decoded?
    ensures msg.err.Some? ==> msg.entries == []
    ensures resp.FetchTransportError? ==> msg.err == Some(resp.message)
    ensures resp.FetchResponse? && resp.code != 200 ==> msg.err == Some(UnexpectedStatus(resp.code))
    ensures resp.FetchResponse? && resp.code == 200 && resp.body.Undecodable? ==> msg.err == Some(resp.body.message)
    ensures msg.err.None? ==> msg.entries == NormalizeAll(resp.body.records)
  {
    match resp
    case FetchTransportError(e) => M.Services([], Some(e), "")
    case FetchResponse(code, body) =>
      if code != 200 then M.Services([], Some(UnexpectedStatus(code)), "")
      else match body
        case Undecodable(e) => M.Services([], Some(e), "")
        case Decoded(raw) => M.Services(NormalizeAll(raw), None, "")
  }

  /** Every entry the client ever hands the state machine has status "ok" or "error". */
  lemma FetchedStatusesNormalized(resp: FetchResponse, i: int)
    requires 0 <= i < |FetchServices(resp).entries|
    ensures FetchServices(resp).entries[i].status in {"ok", "error"}
  {
  }

  /** What came back from POST /services (the body is not read). */
  datatype AddResponse = AddTransportError(message: string) | AddResponse(code: int)

  /** The message `addService` returns: success exactly on 200 or 201; never a client ID. */
  function AddService(resp: AddResponse): (msg: M.Msg)
    ensures msg.AddServiceDone? && msg.clientId == ""
    ensures msg.err.None? <==> resp.AddResponse? && (resp.code == 200 || resp.code == 201)
    ensures resp.AddTransportError? ==> msg.err == Some(resp.message)
    ensures resp.AddResponse? && resp.code != 200 && resp.code != 201 ==> msg.err == Some(UnexpectedStatus(resp.code))
  {
    match resp
    case AddTransportError(e) => M.AddServiceDone(Some(e), "")
    case AddResponse(code) =>
      if code != 201 && code != 200 then M.AddServiceDone(Some(UnexpectedStatus(code)), "")
      else M.AddServiceDone(None, "")
  }
}
