/**
 * The TUI's renderer. A frame is kept as structure rather than as the
 * final ANSI string: which block is shown, the literal texts, the column
 * widths and the cells of each row. Styling, padding and display-width
 * truncation of the cells are left to the rendering library.
 */
module TuiView {
  import opened Wrappers
  import Format
  import M = TuiModel

  const MinTableWidth := 50
  const IdColWidth := 4
  const StatusColWidth := 5
  const LatencyColWidth := 9
  const GapAfterId := 1
  const GapNameToStatus := 0
  const GapStatusToUrl := 3
  const GapAfterUrl := 1
  const FixedWidth := IdColWidth + GapAfterId + StatusColWidth + LatencyColWidth + GapNameToStatus + GapStatusToUrl + GapAfterUrl

  function Max(a: int, b: int): int { if a < b then b else a }

  /**
   * tableLayout: the name and URL column widths for a terminal width.
   * Below the minimum width the minimum is used, so the remaining space is at
   * least 27 and the two fallback branches (4/4 and a 6-wide URL) are never taken.
   * (`remaining * 4 / 10` has non-negative operands here, so Dafny's division
   * agrees with Go's.)
   */
  function TableLayout(width: int): (r: (int, int))
    ensures r.0 + r.1 + FixedWidth == Max(width, MinTableWidth)
    ensures r.0 == (Max(width, MinTableWidth) - FixedWidth) * 4 / 10
    ensures r.0 >= 10 && r.1 >= 17
  {
    var width := if width < MinTableWidth then MinTableWidth else width;
    var remaining := width - FixedWidth;
    if remaining < 10 then (4, 4)
    else
      var nameW := remaining * 4 / 10;
      var nameW := if nameW < 4 then 4 else nameW;
      var urlW := remaining - nameW;
      if urlW < 6 then (remaining - 6, 6) else (nameW, urlW)
  }

  /** A wider terminal never narrows either column. */
  lemma TableLayoutMonotone(w1: int, w2: int)
    requires w1 <= w2
    ensures TableLayout(w1).0 <= TableLayout(w2).0
    ensures TableLayout(w1).1 <= TableLayout(w2).1
  {
  }

  /** The status cell: "OK" exactly for status "ok", otherwise "ERROR". */
  function StatusLabel(status: string): (s: string)
    ensures s == "OK" || s == "ERROR"
    ensures s == "OK" <==> status == "ok"
  {
    if status == "ok" then "OK" else "ERROR"
  }

  /**
   * One line of the service table. A row's name and URL are drawn truncated
   * to the header's widths; `healthy` picks the green or red style.
   */
  datatype TableLine =
    | Header(nameW: int, urlW: int)
    | Row(id: int, name: string, statusLabel: string, healthy: bool, url: string, latency: string)
    | More(hidden: int)                   // "… <hidden> more\n"

  function RowOf(e: M.Entry): (l: TableLine)
    ensures l.Row? && l.id == e.id && l.name == e.name && l.url == e.url
    ensures l.statusLabel == StatusLabel(e.status) && l.healthy == (e.status == "ok")
    ensures l.latency == Format.LatencyLabel(e.latencyMs)
  {
    Row(e.id, e.name, StatusLabel(e.status), e.status == "ok", e.url, Format.LatencyLabel(e.latencyMs))
  }

  /** A width of 0 or less (not yet reported) is taken as 80. */
  function EffectiveWidth(width: int): int { if width <= 0 then 80 else width }

  /** How many rows fit: the height (1000 when unknown) less 8 lines of chrome, and at least one. */
  function MaxRows(height: int): (n: int)
    ensures n >= 1
    ensures height <= 0 ==> n == 992
    ensures height > 0 ==> n == Max(1, height - 8)
  {
    var height := if height <= 0 then 1000 else height;
    if height - 8 < 1 then 1 else height - 8
  }

  /** One row per entry, in order. */
  function Rows(es: seq<M.Entry>): (rs: seq<TableLine>)
    ensures |rs| == |es|
    ensures forall i :: 0 <= i < |es| ==> rs[i] == RowOf(es[i])
  {
    seq(|es|, i requires 0 <= i < |es| => RowOf(es[i]))
  }

  lemma RowsSnoc(es: seq<M.Entry>, i: int)
    requires 0 <= i < |es|
    ensures Rows(es[..i + 1]) == Rows(es[..i]) + [RowOf(es[i])]
  {
  }

  /** The entries that fit, in the order received. */
  function Shown(m: M.Model): seq<M.Entry>
  {
    var maxRows := MaxRows(m.height);
    if |m.entries| > maxRows then m.entries[..maxRows] else m.entries
  }

  /** renderServiceTable, as a value: the header, the rows that fit, then the "more" line if any were cut. */
  function ServiceTable(m: M.Model): seq<TableLine>
  {
    var layout := TableLayout(EffectiveWidth(m.width));
    var maxRows := MaxRows(m.height);
    [Header(layout.0, layout.1)]
      + Rows(Shown(m))
      + (if |m.entries| > maxRows then [More(|m.entries| - maxRows)] else [])
  }

  /**
   * The table shows the first min(n, maxRows) entries in the order received,
   * and a "… k more" line with k = n - maxRows exactly when n > maxRows, so
   * the shown and the hidden rows add up to n.
   */
  lemma ServiceTableShape(m: M.Model)
    ensures var t := ServiceTable(m);
      var n, maxRows := |m.entries|, MaxRows(m.height);
      var shown := if n > maxRows then maxRows else n;
      && |t| == 1 + shown + (if n > maxRows then 1 else 0)
      && t[0] == Header(TableLayout(EffectiveWidth(m.width)).0, TableLayout(EffectiveWidth(m.width)).1)
      && (forall i :: 0 <= i < shown ==> t[1 + i] == RowOf(m.entries[i]))
      && (t[|t| - 1].More? <==> n > maxRows)
      && (n > maxRows ==> t[|t| - 1] == More(n - maxRows) && shown + t[|t| - 1].hidden == n)
  {
  }

  /** The loop of renderServiceTable: the line list grows by one row per shown entry. */
  method RenderServiceTable(m: M.Model) returns (out: seq<TableLine>)
    ensures out == ServiceTable(m)
  {
    var width := m.width;
    if width <= 0 {
      width := 80;
    }
    var height := m.height;
    if height <= 0 {
      height := 1000;
    }
    var layout := TableLayout(width);
    out := [Header(layout.0, layout.1)];
    var maxRows := height - 8;
    if maxRows < 1 {
      maxRows := 1;
    }
    var entries := m.entries;
    var more := 0;
    if |entries| > maxRows {
      entries := entries[..maxRows];
      more := |m.entries| - maxRows;
    }
    assert maxRows == MaxRows(m.height) && entries == Shown(m);
    for i := 0 to |entries|
      invariant out == [Header(layout.0, layout.1)] + Rows(entries[..i])
    {
      var e := entries[i];
      var lat := "—";
      if e.latencyMs.Some? {
        lat := Format.IntToString(e.latencyMs.value) + " ms";
      }
      var statusLabel := "ERROR";
      if e.status == "ok" {
        statusLabel := "OK";
      }
      var row := Row(e.id, e.name, statusLabel, e.status == "ok", e.url, lat);
      assert row == RowOf(e);
      RowsSnoc(entries, i);
      ghost var done := Rows(entries[..i]);
      out := out + [row];
      assert out == [Header(layout.0, layout.1)] + (done + [row]);
    }
    assert entries[..|entries|] == entries;
    if more > 0 {
      out := out + [More(more)];
    }
  }

  /** The list screen's body: an error, the empty-list hint, or the table. */
  datatype Body = ErrorBlock(message: string) | Hint(text: string) | Table(lines: seq<TableLine>)

  /** A whole frame. `Plain` is drawn verbatim; the other two are title, blocks and a help line. */
  datatype Frame =
    | Plain(text: string)
    | Form(title: string, heading: string, name: M.Input, url: M.Input, help: string)
    | Screen(title: string, status: string, body: Body, help: string)

  const EmptyHint := "No services. Press a to add one.\n"
  const FormHelp := "Enter: next / submit · Tab: next · Esc: cancel"
  const ListHelp := "a: add service · q: quit · ctrl+c: quit · ctrl+z: suspend"

  /** render: quitting, then the form, then an error, then an empty list, then the table. */
  function Render(m: M.Model): Frame
  {
    if m.quitting then Plain("Goodbye.\n")
    else if m.adding then Form("◆ " + m.title, "Add service", m.nameInput, m.urlInput, FormHelp)
    else
      var body :=
        if m.err.Some? then ErrorBlock(m.err.value)
        else if |m.entries| == 0 then Hint(EmptyHint)
        else Table(ServiceTable(m));
      Screen("◆ " + m.title, "● " + m.status, body, ListHelp)
  }

  /** The precedence of render's branches, each in both directions. */
  lemma RenderPrecedence(m: M.Model)
    ensures var f := Render(m);
      && (f == Plain("Goodbye.\n") <==> m.quitting)
      && (f.Form? <==> !m.quitting && m.adding)
      && (f.Form? ==> f.name == m.nameInput && f.url == m.urlInput)
      && (f.Screen? ==> f.title == "◆ " + m.title && f.status == "● " + m.status && f.help == ListHelp)
      && (f.Form? ==> f.title == "◆ " + m.title && f.heading == "Add service" && f.help == FormHelp)
      && (f.Screen? && f.body.Hint? ==> f.body.text == EmptyHint)
      && (f.Screen? && f.body.ErrorBlock? <==> !m.quitting && !m.adding && m.err.Some?)
      && (f.Screen? && f.body.Hint? <==> !m.quitting && !m.adding && m.err.None? && |m.entries| == 0)
      && (f.Screen? && f.body.Table? <==> !m.quitting && !m.adding && m.err.None? && |m.entries| > 0)
      && (f.Screen? && f.body.ErrorBlock? ==> f.body.message == m.err.value)
      && (f.Screen? && f.body.Table? ==> f.body.lines == ServiceTable(m))
  {
  }
}
