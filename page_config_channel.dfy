/** The two request handlers of the channel configuration page, over the
    globals they touch: the `config` record, the `mapping` array, the
    record of `saveConfig()` calls and the setup timestamp. */
module PageConfigChannel {
  import opened AmbientLights
  import opened ChannelForm
  import opened ChannelVals

  /** What one `saveConfig()` call persisted: the configuration and the
      mapping table as they stood at the call (no table when `mapping` is
      the null pointer). */
  datatype SaveRecord = SaveRecord(config: Config, mapping: Option<seq<U16>>)

  class Device {
    // the fields of the global `config`
    var id: string
    var maxVal: Long
    var interVal: Long
    var slopeVal: Long
    var channelCount: U16
    var channelGamma: bool
    var zero: bool
    var ap: bool
    var mappingText: string

    /** The global `mapping` pointer; null until a table is allocated. */
    var mapping: array?<U16>

    /** Every `saveConfig()` call so far, oldest first. */
    var saves: seq<SaveRecord>

    /** `lSetupFinishedMillis`. */
    var setupFinishedMillis: int

    /** The globals at boot: a zero-initialised record, no table. */
    constructor ()
      ensures Snapshot() == Config("", 0, 0, 0, 0, false, false, false, "")
      ensures mapping == null && saves == [] && setupFinishedMillis == 0
    {
      id, maxVal, interVal, slopeVal, channelCount := "", 0, 0, 0, 0;
      channelGamma, zero, ap, mappingText := false, false, false, "";
      mapping, saves, setupFinishedMillis := null, [], 0;
    }

    /** The `config` record as a value. */
    function Snapshot(): Config
      reads this
    {
      Config(id, maxVal, interVal, slopeVal, channelCount, channelGamma, zero, ap, mappingText)
    }

    function MappingContents(): Option<seq<U16>>
      reads this, mapping
    {
      if mapping == null then None else Some(mapping[..])
    }

    /** The state the rest of the firmware relies on: a table with one
        entry per channel. */
    predicate MappingMatchesCount()
      reads this
    {
      mapping != null && mapping.Length == channelCount
    }

    /** `saveConfig()`: only the fact of the call and what it saw. */
    method SaveConfig()
      modifies this`saves
      ensures saves == old(saves) + [SaveRecord(Snapshot(), MappingContents())]
    {
      saves := saves + [SaveRecord(Snapshot(), MappingContents())];
    }

    /** The old table is released and a new one of `channelCount` entries
        is allocated and filled with 1, 2, ..., channelCount. */
    method RebuildMapping()
      modifies this`mapping
      ensures fresh(mapping) && mapping.Length == channelCount
      ensures mapping[..] == DefaultMapping(channelCount)
    {
      var table := new U16[channelCount];
      var i := 0;
      while i < channelCount
        invariant 0 <= i <= channelCount
        invariant forall k :: 0 <= k < i ==> table[k] == k + 1
      {
        table[i] := i + 1;
        i := i + 1;
      }
      mapping := table;
      DefaultMappingLength(channelCount);
      forall k | 0 <= k < channelCount ensures mapping[..][k] == DefaultMapping(channelCount)[k] {
        DefaultMappingAt(channelCount, k);
      }
    }

    /** One pass of the handler's parameter loop: the eight name tests
        compare against distinct names, so at most one assignment fires. */
    method ApplyOne(p: Param, toInt: string -> Long)
      modifies this`id, this`maxVal, this`interVal, this`slopeVal, this`channelCount
      modifies this`channelGamma, this`zero, this`ap
      ensures Snapshot() == ApplyParam(old(Snapshot()), p, toInt)
    {
      ApplyParamFields(Snapshot(), p, toInt);
      if p.name == "devid" { id := p.value; }
      else if p.name == "maxVal" { maxVal := toInt(p.value); }
      else if p.name == "interVal" { interVal := toInt(p.value); }
      else if p.name == "slopeVal" { slopeVal := toInt(p.value); }
      else if p.name == "channel_count" { channelCount := ToU16(toInt(p.value)); }
      else if p.name == "gamma" { channelGamma := true; }
      else if p.name == "zero" { zero := true; }
      else if p.name == "ap" { ap := true; }
    }

    /** `send_config_channel_html`: 400 for a request without parameters
        and nothing else happens; otherwise the flags are reset, every
        parameter is folded in, the table is rebuilt if and only if the
        channel count differs from what it was, the configuration is saved
        once and the answer is 303. `now` is the clock reading `millis()`
        returns. */
    method HandleForm(params: seq<Param>, toInt: string -> Long, now: int) returns (status: int)
      modifies this
      ensures params == [] ==>
                status == 400 && Snapshot() == old(Snapshot()) &&
                saves == old(saves) && setupFinishedMillis == old(setupFinishedMillis)
      ensures params != [] ==>
                status == 303 &&
                Snapshot() == FormResult(old(Snapshot()), params, toInt) &&
                saves == old(saves) + [SaveRecord(Snapshot(), MappingContents())] &&
                setupFinishedMillis == now
      ensures channelCount != old(channelCount) ==>
        fresh(mapping) && mapping[..] == DefaultMapping(channelCount)
      ensures channelCount == old(channelCount) ==>
        mapping == old(mapping) && MappingContents() == old(MappingContents())
      ensures old(MappingMatchesCount()) ==> MappingMatchesCount()
    {
      if params == [] {
        return 400;
      }
      channelGamma, zero, ap := false, false, false;
      var oldCount := channelCount;
      ghost var start := Snapshot();
      var i := 0;
      while i < |params|
        invariant 0 <= i <= |params|
        invariant Snapshot() == FoldParams(start, params[..i], toInt)
        invariant mapping == old(mapping) && saves == old(saves)
        invariant setupFinishedMillis == old(setupFinishedMillis)
      {
        ApplyOne(params[i], toInt);
        assert params[..i + 1][..i] == params[..i];
        i := i + 1;
      }
      assert params[..i] == params;
      if oldCount != channelCount {
        RebuildMapping();
      }
      SaveConfig();
      status := 303;
      setupFinishedMillis := now;
    }

    /** `send_config_channel_vals`: answers 200 with the dump of the current
        configuration, appended line by line. */
    method SendVals() returns (status: int, values: string)
      ensures status == 200 && values == Dump(Snapshot())
    {
      values := "";
      values := values + LineText(Line("devid", Input, id));
      values := values + LineText(Line("maxVal", Input, Decimal(maxVal)));
      values := values + LineText(Line("interVal", Input, Decimal(interVal)));
      values := values + LineText(Line("slopeVal", Input, Decimal(slopeVal)));
      values := values + LineText(Line("channel_count", Input, Decimal(channelCount)));
      values := values + LineText(Line("gamma", Chk, CheckedText(channelGamma)));
      values := values + LineText(Line("zero", Chk, CheckedText(zero)));
      values := values + LineText(Line("ap", Chk, CheckedText(ap)));
      values := values + LineText(Line("title", Div, id + " - Channel Config"));
      DumpAppended(Snapshot());
      status := 200;
    }
  }

  // -----------------------------------------------------------------------
  // The loop counter as written

  /** The handler's loop counter is a `uint8_t`: `i++` wraps from 255 to 0. */
  function ByteIndexAfter(k: nat): U8
    decreases k
  {
    if k == 0 then 0
    else if ByteIndexAfter(k - 1) == 255 then 0
    else ByteIndexAfter(k - 1) + 1
  }

  /** After `k` increments the counter holds `k mod 256`. */
  lemma {:induction false} ByteIndexWraps(k: nat)
    ensures ByteIndexAfter(k) == k % 256
    decreases k
  {
    if k > 0 {
      ByteIndexWraps(k - 1);
    }
  }

  /** With 256 or more parameters the loop condition `i < params()` holds
      after every number of increments, so the loop never ends; the 257th
      pass reads parameter 0 again. */
  lemma ByteLoopNeverEnds(n: nat)
    requires n >= 256
    ensures forall k: nat :: ByteIndexAfter(k) < n
    ensures ByteIndexAfter(256) == 0
  {
    ByteIndexWraps(256);
  }
}
