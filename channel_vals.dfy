/** The text `send_config_channel_vals` sends back to the configuration
    page: one `name|type|value` line per form field, each ended by a
    newline. */
module ChannelVals {
  import opened AmbientLights
  import opened ChannelForm

  /** The widget a dumped line fills on the page. */
  datatype Kind = Input | Chk | Div

  /** One line of the dump: field name, widget type and the value shown. */
  datatype Line = Line(name: string, kind: Kind, value: string)

  function KindText(k: Kind): string {
    match k
    case Input => "input"
    case Chk => "chk"
    case Div => "div"
  }

  function ParseKind(t: string): (r: Option<Kind>)
    ensures r.Some? ==> KindText(r.value) == t
  {
    if t == "input" then Some(Input)
    else if t == "chk" then Some(Chk)
    else if t == "div" then Some(Div)
    else None
  }

  lemma KindRoundTrip(k: Kind)
    ensures ParseKind(KindText(k)) == Some(k)
    ensures '|' !in KindText(k) && '\n' !in KindText(k)
  {
  }

  function LineText(l: Line): string {
    l.name + "|" + KindText(l.kind) + "|" + l.value + "\n"
  }

  /** Texts one after the other, each appended to what came before. */
  function Join(ts: seq<string>): string
    decreases |ts|
  {
    if ts == [] then "" else Join(ts[..|ts| - 1]) + ts[|ts| - 1]
  }

  function Texts(ls: seq<Line>): seq<string> {
    seq(|ls|, k requires 0 <= k < |ls| => LineText(ls[k]))
  }

  /** The lines one after the other, the way the handler appends them. */
  function Render(ls: seq<Line>): string {
    Join(Texts(ls))
  }

  // ---------------------------------------------------------------------
  // Decimal text, as Arduino's String(long) and String(uint16_t) write it

  function DigitChar(d: int): (r: char)
    requires 0 <= d < 10
    ensures '0' <= r <= '9' && r as int - '0' as int == d
  {
    ('0' as int + d) as char
  }

  /** The base-10 digits of `n`, most significant first, no leading zeros. */
  function Digits(n: nat): (r: string)
    ensures |r| >= 1
    ensures forall k :: 0 <= k < |r| ==> '0' <= r[k] <= '9'
    decreases n
  {
    if n < 10 then [DigitChar(n)] else Digits(n / 10) + [DigitChar(n % 10)]
  }

  /** A minus sign for negative values, then the digits of the magnitude. */
  function Decimal(x: int): (r: string)
    ensures |r| >= (if x < 0 then 2 else 1)
    ensures (r[0] == '-') == (x < 0)
    ensures forall k :: (if x < 0 then 1 else 0) <= k < |r| ==> '0' <= r[k] <= '9'
    ensures '\n' !in r && '|' !in r
  {
    if x < 0 then "-" + Digits(-x) else Digits(x)
  }

  /** Reads a digit string back as a number. */
  function DigitsValue(s: string): int
    decreases |s|
  {
    if s == [] then 0 else DigitsValue(s[..|s| - 1]) * 10 + (s[|s| - 1] as int - '0' as int)
  }

  /** Reads back what Decimal writes. */
  function DecimalValue(s: string): int {
    if |s| > 0 && s[0] == '-' then -DigitsValue(s[1..]) else DigitsValue(s)
  }

  lemma {:induction false} DigitsRoundTrip(n: nat)
    ensures DigitsValue(Digits(n)) == n
    decreases n
  {
    if n >= 10 {
      var d := Digits(n);
      assert d[..|d| - 1] == Digits(n / 10);
      DigitsRoundTrip(n / 10);
    }
  }

  /** Decimal loses nothing: the number can be read back from it. */
  lemma DecimalRoundTrip(x: int)
    ensures DecimalValue(Decimal(x)) == x
  {
    if x < 0 {
      assert Decimal(x)[1..] == Digits(-x);
      DigitsRoundTrip(-x);
    } else {
      DigitsRoundTrip(x);
    }
  }

  // ---------------------------------------------------------------------
  // The dump

  function CheckedText(b: bool): string {
    if b then "checked" else ""
  }

  /** The five text-input lines, in the order the handler appends them,
      each appended to those before it. */
  function InputLines(c: Config): seq<Line> {
    [Line("devid", Input, c.id)]
    + [Line("maxVal", Input, Decimal(c.maxVal))]
    + [Line("interVal", Input, Decimal(c.interVal))]
    + [Line("slopeVal", Input, Decimal(c.slopeVal))]
    + [Line("channel_count", Input, Decimal(c.channelCount))]
  }

  /** The nine lines, in the order the handler appends them: the text
      inputs, the three checkboxes and the page title. */
  function ValueLines(c: Config): seq<Line> {
    InputLines(c)
    + [Line("gamma", Chk, CheckedText(c.channelGamma))]
    + [Line("zero", Chk, CheckedText(c.zero))]
    + [Line("ap", Chk, CheckedText(c.ap))]
    + [Line("title", Div, c.id + " - Channel Config")]
  }

  /** The body of the response to a values request. */
  function Dump(c: Config): string {
    Render(ValueLines(c))
  }

  // ---------------------------------------------------------------------
  // Reading the dump back

  /** The first position of `ch` in `s`, if any. */
  function Find(s: string, ch: char): (r: Option<nat>)
    ensures r.Some? ==> r.value < |s| && s[r.value] == ch && ch !in s[..r.value]
    ensures r.None? <==> ch !in s
    decreases |s|
  {
    if s == [] then None
    else if s[0] == ch then Some(0)
    else match Find(s[1..], ch)
      case None => None
      case Some(k) => Some(k + 1)
  }

  /** Splits one line (without its newline) at its first two `|`. The value
      is everything after the second one. */
  function ParseLine(t: string): Option<Line> {
    match Find(t, '|')
    case None => None
    case Some(i) =>
      var rest := t[i + 1..];
      match Find(rest, '|')
      case None => None
      case Some(j) =>
        match ParseKind(rest[..j])
        case None => None
        case Some(k) => Some(Line(t[..i], k, rest[j + 1..]))
  }

  /** Splits a dump into newline-terminated lines and parses each. */
  function ParseDump(s: string): Option<seq<Line>>
    decreases |s|
  {
    if s == [] then Some([])
    else match Find(s, '\n')
      case None => None
      case Some(k) =>
        match ParseLine(s[..k])
        case None => None
        case Some(l) =>
          match ParseDump(s[k + 1..])
          case None => None
          case Some(ls) => Some([l] + ls)
  }

  /** A line that reads back unambiguously: no separator in its name or
      type, no newline anywhere. */
  predicate WellFormed(l: Line) {
    '|' !in l.name && '\n' !in l.name && '\n' !in l.value
  }

  lemma {:induction false} FindAfter(a: string, ch: char, b: string)
    requires ch !in a
    ensures Find(a + [ch] + b, ch) == Some(|a|)
    decreases |a|
  {
    var s := a + [ch] + b;
    if a != [] {
      assert s[0] == a[0];
      assert s[1..] == a[1..] + [ch] + b;
      FindAfter(a[1..], ch, b);
    }
  }

  lemma {:induction false} JoinCons(t: string, ts: seq<string>)
    ensures Join([t] + ts) == t + Join(ts)
    decreases |ts|
  {
    var s := [t] + ts;
    if ts == [] {
      assert s == [t] && s[..0] == [];
    } else {
      var n := |ts| - 1;
      assert s[..|s| - 1] == [t] + ts[..n];
      JoinCons(t, ts[..n]);
    }
  }

  lemma RenderCons(l: Line, ls: seq<Line>)
    ensures Render([l] + ls) == LineText(l) + Render(ls)
  {
    assert Texts([l] + ls) == [LineText(l)] + Texts(ls);
    JoinCons(LineText(l), Texts(ls));
  }

  lemma RenderSnoc(ls: seq<Line>, l: Line)
    ensures Render(ls + [l]) == Render(ls) + LineText(l)
  {
    var ts := Texts(ls + [l]);
    assert ts[..|ts| - 1] == Texts(ls);
  }

  /** Splitting `a|b|v` at its first two bars gives back the three parts. */
  lemma SplitAtBars(a: string, b: string, v: string)
    requires '|' !in a && '|' !in b
    ensures var t := a + "|" + b + "|" + v;
      Find(t, '|') == Some(|a|) && t[..|a|] == a &&
      (var rest := t[|a| + 1..];
       Find(rest, '|') == Some(|b|) && rest[..|b|] == b && rest[|b| + 1..] == v)
  {
    var t := a + "|" + b + "|" + v;
    var rest := b + ['|'] + v;
    assert t == a + ['|'] + rest;
    FindAfter(a, '|', rest);
    assert t[|a| + 1..] == rest;
    FindAfter(b, '|', v);
  }

  lemma ParseLineText(l: Line)
    requires WellFormed(l)
    ensures ParseLine(l.name + "|" + KindText(l.kind) + "|" + l.value) == Some(l)
  {
    KindRoundTrip(l.kind);
    SplitAtBars(l.name, KindText(l.kind), l.value);
  }

  predicate AllWellFormed(ls: seq<Line>) {
    forall k :: 0 <= k < |ls| ==> WellFormed(ls[k])
  }

  /** A well-formed line followed by more text parses as that line
      followed by whatever the rest parses as. */
  lemma ParseDumpLine(l: Line, rest: string)
    requires WellFormed(l)
    ensures ParseDump(LineText(l) + rest) ==
      match ParseDump(rest)
      case None => None
      case Some(ls) => Some([l] + ls)
  {
    var body := l.name + "|" + KindText(l.kind) + "|" + l.value;
    var s := LineText(l) + rest;
    assert s == body + ['\n'] + rest;
    KindRoundTrip(l.kind);
    assert '\n' !in body;
    FindAfter(body, '\n', rest);
    assert s[..|body|] == body;
    assert s[|body| + 1..] == rest;
    ParseLineText(l);
  }

  /** Rendering and parsing are inverse on well-formed lines. */
  lemma {:induction false} ParseRender(ls: seq<Line>)
    requires AllWellFormed(ls)
    ensures ParseDump(Render(ls)) == Some(ls)
    decreases |ls|
  {
    if ls != [] {
      var l, tail := ls[0], ls[1..];
      assert ls == [l] + tail;
      RenderCons(l, tail);
      assert AllWellFormed(tail) by {
        forall k | 0 <= k < |tail| ensures WellFormed(tail[k]) {
          assert tail[k] == ls[k + 1];
        }
      }
      ParseRender(tail);
      ParseDumpLine(l, Render(tail));
    }
  }

  lemma RenderSingle(l: Line)
    ensures Render([l]) == "" + LineText(l)
  {
    RenderSnoc([], l);
    assert [] + [l] == [l];
  }

  lemma InputLinesText(c: Config)
    ensures Render(InputLines(c)) == "" +
      LineText(Line("devid", Input, c.id)) +
      LineText(Line("maxVal", Input, Decimal(c.maxVal))) +
      LineText(Line("interVal", Input, Decimal(c.interVal))) +
      LineText(Line("slopeVal", Input, Decimal(c.slopeVal))) +
      LineText(Line("channel_count", Input, Decimal(c.channelCount)))
  {
    var l0 := Line("devid", Input, c.id);
    var l1 := Line("maxVal", Input, Decimal(c.maxVal));
    var l2 := Line("interVal", Input, Decimal(c.interVal));
    var l3 := Line("slopeVal", Input, Decimal(c.slopeVal));
    var l4 := Line("channel_count", Input, Decimal(c.channelCount));
    RenderSingle(l0);
    RenderSnoc([l0], l1);
    RenderSnoc([l0] + [l1], l2);
    RenderSnoc([l0] + [l1] + [l2], l3);
    RenderSnoc([l0] + [l1] + [l2] + [l3], l4);
  }

  /** The dump is the nine line texts appended one after another to the
      empty string, which is how the handler builds it. */
  lemma DumpAppended(c: Config)
    ensures Dump(c) == "" +
      LineText(Line("devid", Input, c.id)) +
      LineText(Line("maxVal", Input, Decimal(c.maxVal))) +
      LineText(Line("interVal", Input, Decimal(c.interVal))) +
      LineText(Line("slopeVal", Input, Decimal(c.slopeVal))) +
      LineText(Line("channel_count", Input, Decimal(c.channelCount))) +
      LineText(Line("gamma", Chk, CheckedText(c.channelGamma))) +
      LineText(Line("zero", Chk, CheckedText(c.zero))) +
      LineText(Line("ap", Chk, CheckedText(c.ap))) +
      LineText(Line("title", Div, c.id + " - Channel Config"))
  {
    var g := Line("gamma", Chk, CheckedText(c.channelGamma));
    var z := Line("zero", Chk, CheckedText(c.zero));
    var a := Line("ap", Chk, CheckedText(c.ap));
    var t := Line("title", Div, c.id + " - Channel Config");
    InputLinesText(c);
    RenderSnoc(InputLines(c), g);
    RenderSnoc(InputLines(c) + [g], z);
    RenderSnoc(InputLines(c) + [g] + [z], a);
    RenderSnoc(InputLines(c) + [g] + [z] + [a], t);
  }

  lemma WellFormedSnoc(ls: seq<Line>, l: Line)
    requires AllWellFormed(ls) && WellFormed(l)
    ensures AllWellFormed(ls + [l])
  {
    forall k | 0 <= k < |ls| + 1 ensures WellFormed((ls + [l])[k]) {
      if k < |ls| {
        assert (ls + [l])[k] == ls[k];
      }
    }
  }

  lemma CheckLineWellFormed(name: string, b: bool)
    requires '|' !in name && '\n' !in name
    ensures WellFormed(Line(name, Chk, CheckedText(b)))
  {
  }

  lemma InputLineWellFormed(name: string, value: string)
    requires '|' !in name && '\n' !in name && '\n' !in value
    ensures WellFormed(Line(name, Input, value))
  {
  }

  lemma TitleHasNoNewline(id: string)
    requires '\n' !in id
    ensures '\n' !in id + " - Channel Config"
  {
    var t := id + " - Channel Config";
    forall k | 0 <= k < |t| ensures t[k] != '\n' {
      if k < |id| { assert t[k] == id[k]; }
    }
  }

  lemma InputLinesWellFormed(c: Config)
    requires '\n' !in c.id
    ensures AllWellFormed(InputLines(c))
  {
    var l0 := Line("devid", Input, c.id);
    var l1 := Line("maxVal", Input, Decimal(c.maxVal));
    var l2 := Line("interVal", Input, Decimal(c.interVal));
    var l3 := Line("slopeVal", Input, Decimal(c.slopeVal));
    var l4 := Line("channel_count", Input, Decimal(c.channelCount));
    InputLineWellFormed("devid", c.id);
    InputLineWellFormed("maxVal", Decimal(c.maxVal));
    InputLineWellFormed("interVal", Decimal(c.interVal));
    InputLineWellFormed("slopeVal", Decimal(c.slopeVal));
    InputLineWellFormed("channel_count", Decimal(c.channelCount));
    WellFormedSnoc([], l0);
    assert [] + [l0] == [l0];
    WellFormedSnoc([l0], l1);
    WellFormedSnoc([l0] + [l1], l2);
    WellFormedSnoc([l0] + [l1] + [l2], l3);
    WellFormedSnoc([l0] + [l1] + [l2] + [l3], l4);
  }

  /** Every line of the dump reads back unambiguously when the device id
      holds no newline. */
  lemma ValueLinesWellFormed(c: Config)
    requires '\n' !in c.id
    ensures AllWellFormed(ValueLines(c))
  {
    var g := Line("gamma", Chk, CheckedText(c.channelGamma));
    var z := Line("zero", Chk, CheckedText(c.zero));
    var a := Line("ap", Chk, CheckedText(c.ap));
    var t := Line("title", Div, c.id + " - Channel Config");
    InputLinesWellFormed(c);
    CheckLineWellFormed("gamma", c.channelGamma);
    CheckLineWellFormed("zero", c.zero);
    CheckLineWellFormed("ap", c.ap);
    TitleHasNoNewline(c.id);
    WellFormedSnoc(InputLines(c), g);
    WellFormedSnoc(InputLines(c) + [g], z);
    WellFormedSnoc(InputLines(c) + [g] + [z], a);
    WellFormedSnoc(InputLines(c) + [g] + [z] + [a], t);
  }

  /** The dump reads back as exactly the lines it was rendered from. This
      needs a device id without a newline, which would otherwise split its
      line. */
  lemma DumpReadsBack(c: Config)
    requires '\n' !in c.id
    ensures ParseDump(Dump(c)) == Some(ValueLines(c))
  {
    ValueLinesWellFormed(c);
    ParseRender(ValueLines(c));
  }

  /** The nine dumped lines, in the handler's order: the checkbox lines
      carry `checked` exactly when the flag is set and an empty value
      otherwise, and the title is built from the device id. */
  lemma ValueLinesListed(c: Config)
    ensures ValueLines(c) == [
      Line("devid", Input, c.id),
      Line("maxVal", Input, Decimal(c.maxVal)),
      Line("interVal", Input, Decimal(c.interVal)),
      Line("slopeVal", Input, Decimal(c.slopeVal)),
      Line("channel_count", Input, Decimal(c.channelCount)),
      Line("gamma", Chk, if c.channelGamma then "checked" else ""),
      Line("zero", Chk, if c.zero then "checked" else ""),
      Line("ap", Chk, if c.ap then "checked" else ""),
      Line("title", Div, c.id + " - Channel Config")]
  {
  }

  /** The dump determines every field it shows: two configurations with the
      same dump agree everywhere except on the textual mapping field, which
      the dump does not show. */
  lemma DumpDeterminesConfig(c1: Config, c2: Config)
    requires '\n' !in c1.id && '\n' !in c2.id
    requires Dump(c1) == Dump(c2)
    ensures c1.(mappingText := c2.mappingText) == c2
  {
    DumpReadsBack(c1);
    DumpReadsBack(c2);
    ValueLinesDetermine(c1, c2);
  }

  /** Two configurations with the same dumped lines agree on every field
      except the textual mapping field. */
  lemma ValueLinesDetermine(c1: Config, c2: Config)
    requires ValueLines(c1) == ValueLines(c2)
    ensures c1.(mappingText := c2.mappingText) == c2
  {
    ValueLinesListed(c1);
    ValueLinesListed(c2);
    var v1, v2 := ValueLines(c1), ValueLines(c2);
    assert v1[0].value == c1.id && v2[0].value == c2.id;
    assert v1[1].value == Decimal(c1.maxVal) && v2[1].value == Decimal(c2.maxVal);
    assert v1[2].value == Decimal(c1.interVal) && v2[2].value == Decimal(c2.interVal);
    assert v1[3].value == Decimal(c1.slopeVal) && v2[3].value == Decimal(c2.slopeVal);
    assert v1[4].value == Decimal(c1.channelCount) && v2[4].value == Decimal(c2.channelCount);
    DecimalRoundTrip(c1.maxVal);
    DecimalRoundTrip(c2.maxVal);
    DecimalRoundTrip(c1.interVal);
    DecimalRoundTrip(c2.interVal);
    DecimalRoundTrip(c1.slopeVal);
    DecimalRoundTrip(c2.slopeVal);
    DecimalRoundTrip(c1.channelCount);
    DecimalRoundTrip(c2.channelCount);
  }

  // ---------------------------------------------------------------------
  // Posting the page back

  /** What the configuration page posts for one dumped line when it is
      submitted untouched: a text input sends its value, a checkbox is sent
      (with the browser's default value `on`) only when it is checked, and a
      div is not a form field. */
  function Submitted(l: Line): seq<Param> {
    match l.kind
    case Input => [Param(l.name, l.value)]
    case Chk => if l.value == "checked" then [Param(l.name, "on")] else []
    case Div => []
  }

  /** The parameters of the whole page, in the order of its fields. */
  function Resubmit(ls: seq<Line>): seq<Param>
    decreases |ls|
  {
    if ls == [] then [] else Resubmit(ls[..|ls| - 1]) + Submitted(ls[|ls| - 1])
  }

  function FlagParam(name: string, b: bool): seq<Param> {
    if b then [Param(name, "on")] else []
  }

  lemma ResubmitSnoc(ls: seq<Line>, l: Line)
    ensures Resubmit(ls + [l]) == Resubmit(ls) + Submitted(l)
  {
    assert (ls + [l])[..|ls|] == ls;
  }

  lemma SubmittedCheck(name: string, b: bool)
    ensures Submitted(Line(name, Chk, CheckedText(b))) == FlagParam(name, b)
  {
  }

  /** The parameters the five text inputs post. */
  function InputParams(c: Config): seq<Param> {
    [Param("devid", c.id)]
    + [Param("maxVal", Decimal(c.maxVal))]
    + [Param("interVal", Decimal(c.interVal))]
    + [Param("slopeVal", Decimal(c.slopeVal))]
    + [Param("channel_count", Decimal(c.channelCount))]
  }

  lemma ResubmitInputLines(c: Config)
    ensures Resubmit(InputLines(c)) == InputParams(c)
  {
    var l0 := Line("devid", Input, c.id);
    var l1 := Line("maxVal", Input, Decimal(c.maxVal));
    var l2 := Line("interVal", Input, Decimal(c.interVal));
    var l3 := Line("slopeVal", Input, Decimal(c.slopeVal));
    var l4 := Line("channel_count", Input, Decimal(c.channelCount));
    ResubmitSnoc([], l0);
    assert [] + [l0] == [l0];
    assert [] + Submitted(l0) == Submitted(l0);
    ResubmitSnoc([l0], l1);
    ResubmitSnoc([l0] + [l1], l2);
    ResubmitSnoc([l0] + [l1] + [l2], l3);
    ResubmitSnoc([l0] + [l1] + [l2] + [l3], l4);
  }

  /** Posting the untouched page sends the five text inputs, in order, and
      then one `on` parameter per checked box; the title is not sent. */
  lemma ResubmitShape(c: Config)
    ensures Resubmit(ValueLines(c)) ==
      InputParams(c) + FlagParam("gamma", c.channelGamma) + FlagParam("zero", c.zero) + FlagParam("ap", c.ap)
  {
    var g := Line("gamma", Chk, CheckedText(c.channelGamma));
    var z := Line("zero", Chk, CheckedText(c.zero));
    var a := Line("ap", Chk, CheckedText(c.ap));
    var t := Line("title", Div, c.id + " - Channel Config");
    ResubmitInputLines(c);
    SubmittedCheck("gamma", c.channelGamma);
    SubmittedCheck("zero", c.zero);
    SubmittedCheck("ap", c.ap);
    ResubmitSnoc(InputLines(c), g);
    ResubmitSnoc(InputLines(c) + [g], z);
    ResubmitSnoc(InputLines(c) + [g] + [z], a);
    ResubmitSnoc(InputLines(c) + [g] + [z] + [a], t);
    var r := Resubmit(InputLines(c) + [g] + [z] + [a]);
    assert r + [] == r;
  }

  lemma FoldSnoc(s: Config, ps: seq<Param>, p: Param, toInt: string -> Long)
    ensures FoldParams(s, ps + [p], toInt) == ApplyParam(FoldParams(s, ps, toInt), p, toInt)
  {
    assert (ps + [p])[..|ps|] == ps;
  }

  /** The text inputs post back what the configuration already holds. */
  lemma InputParamsFixed(c: Config, toInt: string -> Long)
    requires toInt(Decimal(c.maxVal)) == c.maxVal
    requires toInt(Decimal(c.interVal)) == c.interVal
    requires toInt(Decimal(c.slopeVal)) == c.slopeVal
    requires toInt(Decimal(c.channelCount)) == c.channelCount
    ensures InputParams(c) != []
    ensures FoldParams(ClearFlags(c), InputParams(c), toInt) == ClearFlags(c)
  {
    var s := ClearFlags(c);
    var p0 := Param("devid", c.id);
    var p1 := Param("maxVal", Decimal(c.maxVal));
    var p2 := Param("interVal", Decimal(c.interVal));
    var p3 := Param("slopeVal", Decimal(c.slopeVal));
    var p4 := Param("channel_count", Decimal(c.channelCount));
    ApplyParamFields(s, p0, toInt);
    ApplyParamFields(s, p1, toInt);
    ApplyParamFields(s, p2, toInt);
    ApplyParamFields(s, p3, toInt);
    ApplyParamFields(s, p4, toInt);
    FoldSnoc(s, [], p0, toInt);
    assert [] + [p0] == [p0];
    FoldSnoc(s, [p0], p1, toInt);
    FoldSnoc(s, [p0] + [p1], p2, toInt);
    FoldSnoc(s, [p0] + [p1] + [p2], p3, toInt);
    FoldSnoc(s, [p0] + [p1] + [p2] + [p3], p4, toInt);
  }

  lemma FoldFlagParam(s: Config, name: string, b: bool, toInt: string -> Long)
    ensures var r := FoldParams(s, FlagParam(name, b), toInt);
      (name == "gamma" ==> r == s.(channelGamma := s.channelGamma || b)) &&
      (name == "zero" ==> r == s.(zero := s.zero || b)) &&
      (name == "ap" ==> r == s.(ap := s.ap || b))
  {
    if b {
      assert FlagParam(name, b)[..0] == [];
      ApplyParamFields(s, Param(name, "on"), toInt);
    }
  }

  /** Posting the dumped page back unchanged restores the configuration it
      shows, and so leaves the channel count, and with it the mapping table,
      as they were. This holds whenever the number parser reads each shown
      number back as itself. */
  lemma ResubmitRestores(c: Config, toInt: string -> Long)
    requires toInt(Decimal(c.maxVal)) == c.maxVal
    requires toInt(Decimal(c.interVal)) == c.interVal
    requires toInt(Decimal(c.slopeVal)) == c.slopeVal
    requires toInt(Decimal(c.channelCount)) == c.channelCount
    ensures FormResult(c, Resubmit(ValueLines(c)), toInt) == c
  {
    ResubmitShape(c);
    InputParamsFixed(c, toInt);
    var start := ClearFlags(c);
    var ip := InputParams(c);
    var g, z, a := FlagParam("gamma", c.channelGamma), FlagParam("zero", c.zero), FlagParam("ap", c.ap);
    assert ip + g + z + a != [];
    FoldAppend(start, ip + g + z, a, toInt);
    FoldAppend(start, ip + g, z, toInt);
    FoldAppend(start, ip, g, toInt);
    FoldFlagParam(start, "gamma", c.channelGamma, toInt);
    var s1 := start.(channelGamma := c.channelGamma);
    FoldFlagParam(s1, "zero", c.zero, toInt);
    var s2 := s1.(zero := c.zero);
    FoldFlagParam(s2, "ap", c.ap, toInt);
  }
}
