/**
 * The pieces of Go's fmt that both programs use to build text:
 * the `%d` verb for integers, and the latency cell "<n> ms" / "—".
 */
module Format {
  import opened Wrappers

  predicate IsDigit(c: char) { '0' <= c <= '9' }

  function DigitChar(d: int): (c: char)
    requires 0 <= d < 10
    ensures IsDigit(c) && c as int - '0' as int == d
  {
    ['0', '1', '2', '3', '4', '5', '6', '7', '8', '9'][d]
  }

  /** The value of a string of decimal digits, most significant first. */
  function DecimalValue(s: string): (v: nat)
    requires forall i :: 0 <= i < |s| ==> IsDigit(s[i])
  {
    if s == [] then 0
    else
      assert IsDigit(s[|s| - 1]);
      DecimalValue(s[..|s| - 1]) * 10 + (s[|s| - 1] as int - '0' as int)
  }

  /** `%d` of a non-negative integer: its shortest decimal representation. */
  function NatToString(n: nat): (s: string)
    ensures |s| > 0
    ensures forall i :: 0 <= i < |s| ==> IsDigit(s[i])
    ensures s[0] == '0' ==> s == "0"
    ensures DecimalValue(s) == n
  {
    if n < 10 then [DigitChar(n)]
    else
      var front := NatToString(n / 10);
      var s := front + [DigitChar(n % 10)];
      assert s[..|s| - 1] == front;
      s
  }

  /** `%d` of any integer: a minus sign in front of the magnitude when negative. */
  function IntToString(n: int): (s: string)
  {
    if n < 0 then "-" + NatToString(-n) else NatToString(n)
  }

  /** Reads back what IntToString writes: an optional '-' and decimal digits. */
  function ParseInt(s: string): Option<int>
  {
    if |s| > 0 && s[0] == '-' then
      var t := s[1..];
      if |t| > 0 && forall i :: 0 <= i < |t| ==> IsDigit(t[i]) then Some(0 - DecimalValue(t) as int) else None
    else if |s| > 0 && forall i :: 0 <= i < |s| ==> IsDigit(s[i]) then Some(DecimalValue(s))
    else None
  }

  lemma ParseIntToString(n: int)
    ensures ParseInt(IntToString(n)) == Some(n)
  {
  }

  /** Two different counts never print alike, so a status line such as "3 service(s)" names its count. */
  lemma IntToStringInjective(a: int, b: int)
    requires IntToString(a) == IntToString(b)
    ensures a == b
  {
    ParseIntToString(a);
    ParseIntToString(b);
  }

  /** The latency cell of a table row: "—" when there is no measurement, else "<n> ms". */
  function LatencyLabel(latency: Option<int>): (s: string)
    ensures latency.None? <==> s == "—"
    ensures latency.Some? ==> s == IntToString(latency.value) + " ms"
  {
    match latency
    case None => "—"
    case Some(n) => IntToString(n) + " ms"
  }
}
