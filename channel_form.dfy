/** What a submitted channel-configuration form does to the configuration
    (the parameter loop of `send_config_channel_html`), as functions on
    `Config` values, and the default mapping table written when the channel
    count changes. */
module ChannelForm {
  import opened AmbientLights

  /** One request parameter: its name and its (textual) value. */
  datatype Param = Param(name: string, value: string)

  /** The names the loop body compares against. */
  predicate Recognised(name: string) {
    name == "devid" || name == "maxVal" || name == "interVal" || name == "slopeVal" ||
    name == "channel_count" || name == "gamma" || name == "zero" || name == "ap"
  }

  /** Some parameter of the request carries `name`. */
  predicate HasParam(ps: seq<Param>, name: string) {
    exists j :: 0 <= j < |ps| && ps[j].name == name
  }

  /** `ps[i]` is the last parameter of the request with its name. */
  predicate IsLastOfName(ps: seq<Param>, i: int) {
    0 <= i < |ps| && forall j :: i < j < |ps| ==> ps[j].name != ps[i].name
  }

  /** One pass of the loop body: the eight guarded assignments. The names
      are distinct, so at most one of them fires. */
  function ApplyParam(c: Config, p: Param, toInt: string -> Long): Config {
    if p.name == "devid" then c.(id := p.value)
    else if p.name == "maxVal" then c.(maxVal := toInt(p.value))
    else if p.name == "interVal" then c.(interVal := toInt(p.value))
    else if p.name == "slopeVal" then c.(slopeVal := toInt(p.value))
    else if p.name == "channel_count" then c.(channelCount := ToU16(toInt(p.value)))
    else if p.name == "gamma" then c.(channelGamma := true)
    else if p.name == "zero" then c.(zero := true)
    else if p.name == "ap" then c.(ap := true)
    else c
  }

  /** The loop over the parameters, in request order. */
  function FoldParams(c: Config, ps: seq<Param>, toInt: string -> Long): Config
    decreases |ps|
  {
    if ps == [] then c
    else ApplyParam(FoldParams(c, ps[..|ps| - 1], toInt), ps[|ps| - 1], toInt)
  }

  /** The three checkbox flags are reset before the loop. */
  function ClearFlags(c: Config): Config {
    c.(channelGamma := false, zero := false, ap := false)
  }

  /** The configuration after the form handler: untouched for a request
      without parameters, otherwise flags reset and then every parameter
      folded in. */
  function FormResult(c: Config, ps: seq<Param>, toInt: string -> Long): Config {
    if ps == [] then c else FoldParams(ClearFlags(c), ps, toInt)
  }

  /** The request's parameters whose names the loop body recognises, in order. */
  function Known(ps: seq<Param>): (r: seq<Param>)
    ensures |r| <= |ps|
    ensures forall j :: 0 <= j < |r| ==> Recognised(r[j].name)
    decreases |ps|
  {
    if ps == [] then []
    else if Recognised(ps[|ps| - 1].name) then Known(ps[..|ps| - 1]) + [ps[|ps| - 1]]
    else Known(ps[..|ps| - 1])
  }

  // ---------------------------------------------------------------------
  // Properties of the fold

  /** The effect of one parameter, field by field. */
  lemma ApplyParamFields(c: Config, p: Param, toInt: string -> Long)
    ensures var r := ApplyParam(c, p, toInt);
      r.id == (if p.name == "devid" then p.value else c.id) &&
      r.maxVal == (if p.name == "maxVal" then toInt(p.value) else c.maxVal) &&
      r.interVal == (if p.name == "interVal" then toInt(p.value) else c.interVal) &&
      r.slopeVal == (if p.name == "slopeVal" then toInt(p.value) else c.slopeVal) &&
      r.channelCount == (if p.name == "channel_count" then ToU16(toInt(p.value)) else c.channelCount) &&
      r.channelGamma == (p.name == "gamma" || c.channelGamma) &&
      r.zero == (p.name == "zero" || c.zero) &&
      r.ap == (p.name == "ap" || c.ap) &&
      r.mappingText == c.mappingText
  {
  }

  /** Folding a concatenation is folding its two parts in turn. */
  lemma {:induction false} FoldAppend(c: Config, a: seq<Param>, b: seq<Param>, toInt: string -> Long)
    ensures FoldParams(c, a + b, toInt) == FoldParams(FoldParams(c, a, toInt), b, toInt)
    decreases |b|
  {
    if b == [] {
      assert a + b == a;
    } else {
      var n := |b| - 1;
      assert (a + b)[..|a + b| - 1] == a + b[..n];
      assert (a + b)[|a + b| - 1] == b[n];
      FoldAppend(c, a, b[..n], toInt);
    }
  }

  /** Each value field is the parsed value of the last parameter with its
      name; earlier parameters of that name are overwritten. */
  lemma {:induction false} FoldLastWriteWins(c: Config, ps: seq<Param>, toInt: string -> Long, i: int)
    requires IsLastOfName(ps, i)
    ensures var r := FoldParams(c, ps, toInt);
      (ps[i].name == "devid" ==> r.id == ps[i].value) &&
      (ps[i].name == "maxVal" ==> r.maxVal == toInt(ps[i].value)) &&
      (ps[i].name == "interVal" ==> r.interVal == toInt(ps[i].value)) &&
      (ps[i].name == "slopeVal" ==> r.slopeVal == toInt(ps[i].value)) &&
      (ps[i].name == "channel_count" ==> r.channelCount == ToU16(toInt(ps[i].value)))
    decreases |ps|
  {
    var n := |ps| - 1;
    if i == n {
      ApplyParamFields(FoldParams(c, ps[..n], toInt), ps[n], toInt);
    } else {
      var front := ps[..n];
      assert front[i] == ps[i];
      assert IsLastOfName(front, i) by {
        forall j | i < j < |front| ensures front[j].name != front[i].name {
          assert front[j] == ps[j];
        }
      }
      FoldLastWriteWins(c, front, toInt, i);
      ApplyParamFields(FoldParams(c, front, toInt), ps[n], toInt);
      assert ps[n].name != ps[i].name;
    }
  }

  /** A field no parameter names keeps the value it had before the loop. */
  lemma {:induction false} FoldAbsentKeeps(c: Config, ps: seq<Param>, toInt: string -> Long, name: string)
    requires !HasParam(ps, name)
    ensures var r := FoldParams(c, ps, toInt);
      (name == "devid" ==> r.id == c.id) &&
      (name == "maxVal" ==> r.maxVal == c.maxVal) &&
      (name == "interVal" ==> r.interVal == c.interVal) &&
      (name == "slopeVal" ==> r.slopeVal == c.slopeVal) &&
      (name == "channel_count" ==> r.channelCount == c.channelCount) &&
      (name == "gamma" ==> r.channelGamma == c.channelGamma) &&
      (name == "zero" ==> r.zero == c.zero) &&
      (name == "ap" ==> r.ap == c.ap)
    decreases |ps|
  {
    if ps != [] {
      var n := |ps| - 1;
      assert !HasParam(ps[..n], name) by {
        forall j | 0 <= j < n ensures ps[..n][j].name != name {
          assert ps[..n][j] == ps[j];
        }
      }
      FoldAbsentKeeps(c, ps[..n], toInt, name);
      ApplyParamFields(FoldParams(c, ps[..n], toInt), ps[n], toInt);
      assert ps[n].name != name;
    }
  }

  /** A checkbox flag ends up set exactly when it was set before the loop or
      some parameter carries its name. */
  lemma {:induction false} FoldFlags(c: Config, ps: seq<Param>, toInt: string -> Long)
    ensures var r := FoldParams(c, ps, toInt);
      (r.channelGamma <==> c.channelGamma || HasParam(ps, "gamma")) &&
      (r.zero <==> c.zero || HasParam(ps, "zero")) &&
      (r.ap <==> c.ap || HasParam(ps, "ap"))
    decreases |ps|
  {
    if ps != [] {
      var n := |ps| - 1;
      FoldFlags(c, ps[..n], toInt);
      ApplyParamFields(FoldParams(c, ps[..n], toInt), ps[n], toInt);
      HasParamSnoc(ps, "gamma");
      HasParamSnoc(ps, "zero");
      HasParamSnoc(ps, "ap");
    }
  }

  lemma HasParamSnoc(ps: seq<Param>, name: string)
    requires ps != []
    ensures HasParam(ps, name) <==> HasParam(ps[..|ps| - 1], name) || ps[|ps| - 1].name == name
  {
    var n := |ps| - 1;
    if HasParam(ps, name) {
      var j :| 0 <= j < |ps| && ps[j].name == name;
      if j < n { assert ps[..n][j] == ps[j]; }
    }
    if HasParam(ps[..n], name) {
      var j :| 0 <= j < n && ps[..n][j].name == name;
      assert ps[j] == ps[..n][j];
    }
  }

  /** Parameters with unrecognised names change nothing: the fold over the
      request equals the fold over its recognised parameters. */
  lemma {:induction false} FoldIgnoresUnknown(c: Config, ps: seq<Param>, toInt: string -> Long)
    ensures FoldParams(c, ps, toInt) == FoldParams(c, Known(ps), toInt)
    decreases |ps|
  {
    if ps != [] {
      var n := |ps| - 1;
      FoldIgnoresUnknown(c, ps[..n], toInt);
      if Recognised(ps[n].name) {
        var k := Known(ps[..n]) + [ps[n]];
        assert k[..|k| - 1] == Known(ps[..n]);
      }
    }
  }

  // ---------------------------------------------------------------------
  // Properties of the whole handler, stated on FormResult

  /** After a request with parameters, each checkbox flag is set exactly
      when the request carries its name, whatever it was before. */
  lemma FormFlagsIffPresent(c: Config, ps: seq<Param>, toInt: string -> Long)
    requires ps != []
    ensures var r := FormResult(c, ps, toInt);
      (r.channelGamma <==> HasParam(ps, "gamma")) &&
      (r.zero <==> HasParam(ps, "zero")) &&
      (r.ap <==> HasParam(ps, "ap"))
  {
    FoldFlags(ClearFlags(c), ps, toInt);
  }

  /** Each value field equals the parsed value of the last parameter with
      its name. */
  lemma FormLastWriteWins(c: Config, ps: seq<Param>, toInt: string -> Long, i: int)
    requires IsLastOfName(ps, i)
    ensures var r := FormResult(c, ps, toInt);
      (ps[i].name == "devid" ==> r.id == ps[i].value) &&
      (ps[i].name == "maxVal" ==> r.maxVal == toInt(ps[i].value)) &&
      (ps[i].name == "interVal" ==> r.interVal == toInt(ps[i].value)) &&
      (ps[i].name == "slopeVal" ==> r.slopeVal == toInt(ps[i].value)) &&
      (ps[i].name == "channel_count" ==> r.channelCount == ToU16(toInt(ps[i].value)))
  {
    FoldLastWriteWins(ClearFlags(c), ps, toInt, i);
  }

  /** A value field no parameter names keeps its previous value. */
  lemma FormAbsentKeeps(c: Config, ps: seq<Param>, toInt: string -> Long, name: string)
    requires !HasParam(ps, name)
    ensures var r := FormResult(c, ps, toInt);
      (name == "devid" ==> r.id == c.id) &&
      (name == "maxVal" ==> r.maxVal == c.maxVal) &&
      (name == "interVal" ==> r.interVal == c.interVal) &&
      (name == "slopeVal" ==> r.slopeVal == c.slopeVal) &&
      (name == "channel_count" ==> r.channelCount == c.channelCount)
    ensures ps == [] ==> FormResult(c, ps, toInt) == c
  {
    if ps != [] {
      FoldAbsentKeeps(ClearFlags(c), ps, toInt, name);
    }
  }

  /** Only recognised parameters matter, and the record's textual mapping
      field is never written. */
  lemma {:induction false} FormIgnoresUnknown(c: Config, ps: seq<Param>, toInt: string -> Long)
    requires ps != []
    ensures FormResult(c, ps, toInt) == FoldParams(ClearFlags(c), Known(ps), toInt)
    ensures FormResult(c, ps, toInt).mappingText == c.mappingText
  {
    FoldIgnoresUnknown(ClearFlags(c), ps, toInt);
    FoldKeepsMappingText(ClearFlags(c), ps, toInt);
  }

  lemma {:induction false} FoldKeepsMappingText(c: Config, ps: seq<Param>, toInt: string -> Long)
    ensures FoldParams(c, ps, toInt).mappingText == c.mappingText
    decreases |ps|
  {
    if ps != [] {
      FoldKeepsMappingText(c, ps[..|ps| - 1], toInt);
      ApplyParamFields(FoldParams(c, ps[..|ps| - 1], toInt), ps[|ps| - 1], toInt);
    }
  }

  // ---------------------------------------------------------------------
  // The default mapping table

  /** The table the handler writes when the channel count changes:
      logical channel `i` goes to output `i + 1` (1-based). */
  function DefaultMapping(n: U16): seq<U16>
    decreases n
  {
    if n == 0 then [] else DefaultMapping(n - 1) + [n]
  }

  lemma {:induction false} DefaultMappingAt(n: U16, i: int)
    requires 0 <= i < n
    ensures |DefaultMapping(n)| == n
    ensures DefaultMapping(n)[i] == i + 1
    decreases n
  {
    DefaultMappingLength(n - 1);
    if i < n - 1 {
      DefaultMappingAt(n - 1, i);
    }
  }

  lemma {:induction false} DefaultMappingLength(n: U16)
    ensures |DefaultMapping(n)| == n
    decreases n
  {
    if n > 0 {
      DefaultMappingLength(n - 1);
    }
  }

  /** The default table sends the `n` logical channels to `n` distinct
      outputs, all within 1..n. */
  lemma DefaultMappingIsInjective(n: U16)
    ensures |DefaultMapping(n)| == n
    ensures forall i :: 0 <= i < n ==> 1 <= DefaultMapping(n)[i] <= n
    ensures forall i, j :: 0 <= i < j < n ==> DefaultMapping(n)[i] != DefaultMapping(n)[j]
  {
    DefaultMappingLength(n);
    forall i | 0 <= i < n ensures DefaultMapping(n)[i] == i + 1 {
      DefaultMappingAt(n, i);
    }
  }
}
