/**
 Chart point names and the tooltip that reads them back.

 Every point of the reserve chart is named `<head>-<timestamp>`: `Start-<t>`,
 `<drawId>-<t>` or `Now-<t>`, where numbers are written the way a JavaScript
 template literal writes a non-negative integer (plain decimal, no leading zeros).
 The tooltip splits the name on `-` and decides from the first segment whether
 the point is a draw.
 */
module Labels {
  import opened Optional

  predicate IsDigit(c: char) {
    '0' <= c <= '9'
  }

  predicate AllDigits(s: string) {
    forall i :: 0 <= i < |s| ==> IsDigit(s[i])
  }

  function DigitValue(c: char): nat
    requires IsDigit(c)
  {
    (c as int) - ('0' as int)
  }

  function DigitChar(d: nat): (c: char)
    requires d < 10
    ensures IsDigit(c) && DigitValue(c) == d
  {
    (('0' as int) + d) as char
  }

  /** Decimal rendering of a non-negative integer, as `${n}` produces it. */
  function NatToString(n: nat): (s: string)
    ensures |s| >= 1
    ensures AllDigits(s)
    ensures '-' !in s
    ensures s[0] == '0' ==> n == 0 && |s| == 1
    decreases n
  {
    if n < 10 then [DigitChar(n)] else NatToString(n / 10) + [DigitChar(n % 10)]
  }

  /** The value of a string of decimal digits, leading zeros allowed. */
  function DigitsValue(s: string): nat
    requires AllDigits(s)
    decreases |s|
  {
    if |s| == 0 then 0 else DigitsValue(s[..|s| - 1]) * 10 + DigitValue(s[|s| - 1])
  }

  /** A non-empty string of decimal digits read as a number; anything else has no value. */
  function ParseNat(s: string): (r: Option<nat>)
    ensures r.Some? <==> |s| > 0 && AllDigits(s)
  {
    if |s| > 0 && AllDigits(s) then Some(DigitsValue(s)) else None
  }

  /**
   JavaScript's `Number(s)` (and unary `+s`) restricted to the strings this chart
   produces: the empty string is 0, a run of decimal digits is its value, and
   everything else is `NaN`, written `None`.
   */
  function JsNumber(s: string): (r: Option<nat>)
    ensures r.Some? <==> AllDigits(s)
    ensures forall n: nat :: s == NatToString(n) ==> r == Some(n)
  {
    ParseNatToStringAll();
    if s == "" then Some(0) else ParseNat(s)
  }

  /** Reading back a rendered number gives the number. */
  lemma {:induction false} ParseNatToString(n: nat)
    ensures ParseNat(NatToString(n)) == Some(n)
    decreases n
  {
    var s := NatToString(n);
    if n >= 10 {
      ParseNatToString(n / 10);
      var p := NatToString(n / 10);
      assert s == p + [DigitChar(n % 10)];
      assert s[..|s| - 1] == p;
      assert DigitsValue(s) == DigitsValue(p) * 10 + n % 10;
    }
  }

  /** Reading back any rendered number gives the number. */
  lemma ParseNatToStringAll()
    ensures forall n: nat :: ParseNat(NatToString(n)) == Some(n)
  {
    forall n: nat
      ensures ParseNat(NatToString(n)) == Some(n)
    {
      ParseNatToString(n);
    }
  }

  /** `s.split(sep)`: the maximal runs between separators, empty runs included. */
  function Split(s: string, sep: char): (parts: seq<string>)
    ensures |parts| >= 1
    ensures forall i :: 0 <= i < |parts| ==> sep !in parts[i]
    ensures Join(parts, sep) == s
    decreases |s|
  {
    if |s| == 0 then [""]
    else
      var rest := Split(s[1..], sep);
      if s[0] == sep then
        [""] + rest
      else
        assert s == [s[0]] + s[1..];
        [[s[0]] + rest[0]] + rest[1..]
  }

  /** `parts.join(sep)`. */
  function Join(parts: seq<string>, sep: char): string
    decreases |parts|
  {
    if |parts| == 0 then ""
    else if |parts| == 1 then parts[0]
    else parts[0] + [sep] + Join(parts[1..], sep)
  }

  lemma {:induction false} SplitWithoutSep(s: string, sep: char)
    requires sep !in s
    ensures Split(s, sep) == [s]
    decreases |s|
  {
    if |s| > 0 {
      SplitWithoutSep(s[1..], sep);
      assert [s[0]] + s[1..] == s;
    }
  }

  lemma {:induction false} SplitAtFirstSep(x: string, y: string, sep: char)
    requires sep !in x
    ensures Split(x + [sep] + y, sep) == [x] + Split(y, sep)
    decreases |x|
  {
    var s := x + [sep] + y;
    if |x| == 0 {
      assert s == [sep] + y;
      assert s[1..] == y;
    } else {
      assert s[1..] == x[1..] + [sep] + y;
      SplitAtFirstSep(x[1..], y, sep);
      assert [x[0]] + x[1..] == x;
    }
  }

  /** Splitting undoes joining, provided no part holds the separator. */
  lemma {:induction false} SplitJoin(parts: seq<string>, sep: char)
    requires |parts| >= 1
    requires forall i :: 0 <= i < |parts| ==> sep !in parts[i]
    ensures Split(Join(parts, sep), sep) == parts
    decreases |parts|
  {
    if |parts| == 1 {
      SplitWithoutSep(parts[0], sep);
    } else {
      SplitJoin(parts[1..], sep);
      SplitAtFirstSep(parts[0], Join(parts[1..], sep), sep);
      assert [parts[0]] + parts[1..] == parts;
    }
  }

  /** The name `<head>-<t>` of a chart point. */
  function Label(head: string, t: nat): string {
    head + "-" + NatToString(t)
  }

  function StartLabel(firstDrawOpenedAt: nat): string {
    Label("Start", firstDrawOpenedAt)
  }

  function DrawLabel(drawId: nat, awardedAt: nat): string {
    Label(NatToString(drawId), awardedAt)
  }

  function NowLabel(currentTimestamp: nat): string {
    Label("Now", currentTimestamp)
  }

  /** A label splits on `-` into its head and its rendered timestamp. */
  lemma LabelSplits(head: string, t: nat)
    requires '-' !in head
    ensures Split(Label(head, t), '-') == [head, NatToString(t)]
  {
    assert Label(head, t) == Join([head, NatToString(t)], '-');
    SplitJoin([head, NatToString(t)], '-');
  }

  /** Round trip of a draw point's name: both numbers come back from the split. */
  lemma DrawLabelRoundTrip(drawId: nat, awardedAt: nat)
    ensures |Split(DrawLabel(drawId, awardedAt), '-')| == 2
    ensures ParseNat(Split(DrawLabel(drawId, awardedAt), '-')[0]) == Some(drawId)
    ensures ParseNat(Split(DrawLabel(drawId, awardedAt), '-')[1]) == Some(awardedAt)
  {
    LabelSplits(NatToString(drawId), awardedAt);
    ParseNatToString(drawId);
    ParseNatToString(awardedAt);
  }

  /**
   What the tooltip shows: a draw (its id segment and the timestamp that
   `getSimpleDate` would format, `None` for `NaN`) or a marker segment shown as is.
   */
  datatype Tooltip = DrawTooltip(drawId: string, timestamp: Option<nat>) | PlainTooltip(text: string)

  /** `formatTooltipLabel`: a first segment that reads as a number names a draw. */
  function FormatTooltipLabel(name: string): (r: Tooltip)
    ensures r.DrawTooltip? <==> JsNumber(Split(name, '-')[0]).Some?
    ensures r.DrawTooltip? ==> r.drawId == Split(name, '-')[0]
    ensures r.PlainTooltip? ==> r.text == Split(name, '-')[0]
  {
    var parts := Split(name, '-');
    var drawId := parts[0];
    var timestamp := if |parts| > 1 then JsNumber(parts[1]) else None;
    if JsNumber(drawId).Some? then DrawTooltip(drawId, timestamp) else PlainTooltip(drawId)
  }

  /** The tooltip of a draw point shows that draw's id and award time. */
  lemma TooltipOfDrawLabel(drawId: nat, awardedAt: nat)
    ensures FormatTooltipLabel(DrawLabel(drawId, awardedAt)) == DrawTooltip(NatToString(drawId), Some(awardedAt))
  {
    DrawLabelRoundTrip(drawId, awardedAt);
    LabelSplits(NatToString(drawId), awardedAt);
    var parts := Split(DrawLabel(drawId, awardedAt), '-');
    assert parts == [NatToString(drawId), NatToString(awardedAt)];
    assert JsNumber(parts[0]) == Some(drawId);
    assert JsNumber(parts[1]) == Some(awardedAt);
  }

  /** The tooltips of the synthetic points show just `Start` and `Now`. */
  lemma TooltipOfMarkerLabels(t: nat)
    ensures FormatTooltipLabel(StartLabel(t)) == PlainTooltip("Start")
    ensures FormatTooltipLabel(NowLabel(t)) == PlainTooltip("Now")
  {
    LabelSplits("Start", t);
    LabelSplits("Now", t);
    assert !IsDigit("Start"[0]);
    assert !IsDigit("Now"[0]);
  }
}
