# AmbientLights channel configuration page, modelled in Dafny

The AmbientLights firmware (ESP8266, PCA9685 outputs) serves a channel
configuration page. Two handlers sit behind it:

- `send_config_channel_html` takes the submitted form. It resets the three
  checkbox flags (`channel_gamma`, `zero`, `ap`). It walks the request
  parameters in order and overwrites the field each recognised name selects.
  If `channel_count` ended up different from its value before the loop, it
  frees the global `mapping` table and fills a new one with
  `mapping[i] = i + 1`. It then calls `saveConfig()`, answers 303 and stamps
  `lSetupFinishedMillis`. A request without parameters gets a 400 and changes
  nothing.
- `send_config_channel_vals` answers 200 with nine newline-terminated
  `name|type|value` lines that the page uses to fill its widgets.

The model has four modules:

- `AmbientLights` (`ambient_lights.dfy`): the C integer types and the
  `config_t` record as a value `Config`. `long` is 32 bits. Storing the
  parsed count into the `uint16_t` field is a reduction modulo 2^16
  (`ToU16`).
- `ChannelForm` (`channel_form.dfy`): the parameter loop as a fold
  (`ApplyParam`, `FoldParams`, `FormResult`) and the default table
  `DefaultMapping`. The lemmas here state what the form does to the record.
- `ChannelVals` (`channel_vals.dfy`): the dump as a list of lines
  (`ValueLines`, `Dump`). It also has the decimal rendering of
  `String(long)`, a reference parser for the dump (`ParseDump`) with its
  round trip, and the page posting its own dump back (`Resubmit`).
- `PageConfigChannel` (`page_config_channel.dfy`): the globals as the
  fields of a class `Device`. The two handlers are methods that update
  those fields step by step, as the C code does. Each method is proved
  against the functions of the two modules above.

`String::toInt()` is passed in as an abstract function `toInt`, and the
clock reading of `millis()` as a parameter `now`.

The default table the handler writes is 1-based (`mapping[i] = i + 1`), not
the identity, and the model keeps it so (`DefaultMapping`,
`Device.RebuildMapping`).
`config_t` (AmbientLights.h:71-85) has no `ap` member, yet the handlers
read and write `config.ap`. The model gives `Config` an `ap` field.

## Model

| member | source | states |
|---|---|---|
| `AmbientLights.ToU16` | page_config_channel.h:17 | storing the parsed number in the `uint16_t` field keeps it modulo 2^16; a number that already fits is stored unchanged |
| `ChannelForm.FoldAppend` | page_config_channel.h:11-21 | processing a request in two consecutive parts, one after the other, gives the same record as processing it whole |
| `ChannelForm.FoldLastWriteWins` | page_config_channel.h:11-21 | after the loop, each of `id`, `maxVal`, `interVal`, `slopeVal`, `channel_count` holds the (parsed) value of the last parameter with its name |
| `ChannelForm.FoldAbsentKeeps` | page_config_channel.h:11-21 | a value field that no parameter names keeps the value it had before the loop |
| `ChannelForm.FoldFlags` | page_config_channel.h:18-20 | after the loop a checkbox flag is set if and only if it was set before or some parameter carries its name |
| `ChannelForm.FoldIgnoresUnknown` | page_config_channel.h:13-20 | parameters whose names none of the eight tests recognise change nothing: the loop over the request equals the loop over its recognised parameters |
| `ChannelForm.FormFlagsIffPresent` | page_config_channel.h:6-20 | for a request with parameters, each of `channel_gamma`, `zero`, `ap` ends up true exactly when some parameter has its name; what it was before does not matter |
| `ChannelForm.FormLastWriteWins` | page_config_channel.h:11-21 | in the whole handler, each value field equals the parsed value of the last parameter with its name; `channel_count` is reduced to 16 bits |
| `ChannelForm.FormAbsentKeeps` | page_config_channel.h:11-21 | in the whole handler, a value field that no parameter names keeps its previous value; with no parameters at all, the whole record, flags and `String mapping` included, is unchanged |
| `ChannelForm.FormIgnoresUnknown` | page_config_channel.h:13-20 | in the whole handler, only recognised parameters matter, and the record's `String mapping` field is never written |
| `ChannelForm.FoldKeepsMappingText` | page_config_channel.h:13-20 | no parameter writes the record's `String mapping` field |
| `ChannelForm.DefaultMappingAt` | page_config_channel.h:27-29 | the rebuilt table has `channel_count` entries and entry `i` is `i + 1` |
| `ChannelForm.DefaultMappingIsInjective` | page_config_channel.h:27-29 | the rebuilt table sends the channels to outputs 1 to `channel_count`, no two channels to the same output |
| `ChannelVals.Decimal` | page_config_channel.h:46-49 | `String(long)` gives a minus sign exactly for a negative value, followed by at least one digit and nothing but digits, with neither `\|` nor a newline in it |
| `ChannelVals.DigitsRoundTrip` | page_config_channel.h:46-49 | the digits of a natural number read back as that number |
| `ChannelVals.DecimalRoundTrip` | page_config_channel.h:46-49 | the decimal text of any integer reads back as that integer; no information is lost in the dump |
| `ChannelVals.ParseKind` | page_config_channel.h:45-53 | only `input`, `chk` and `div` are read as widget types, each back to the type that renders as it |
| `ChannelVals.ParseRender` | page_config_channel.h:44-53 | any list of well-formed lines, rendered as `name\|type\|value` plus a newline and appended one after another, parses back to the same list |
| `ChannelVals.DumpAppended` | page_config_channel.h:44-53 | the dump is the nine line texts appended in order to the empty string, devid first and title last |
| `ChannelVals.ValueLinesWellFormed` | page_config_channel.h:45-53 | every dumped line reads back unambiguously when the device id has no newline |
| `ChannelVals.DumpReadsBack` | page_config_channel.h:44-53 | parsing the dump gives back exactly the lines it was rendered from, in order, when the device id has no newline |
| `ChannelVals.ValueLinesListed` | page_config_channel.h:44-53 | the dumped lines are exactly nine, in the order devid, maxVal, interVal, slopeVal, channel_count, gamma, zero, ap, title. The checkbox lines carry `checked` if the flag is set and an empty value otherwise. The title line is `title\|div\|<id> - Channel Config` |
| `ChannelVals.DumpDeterminesConfig` | page_config_channel.h:44-53 | two records with the same dump agree on every field except the `String mapping` field, which the dump does not show |
| `ChannelVals.ValueLinesDetermine` | page_config_channel.h:45-53 | two records with the same dumped lines agree on every field except the `String mapping` field, whatever their device ids hold |
| `ChannelVals.ResubmitShape` | page_config_channel.h:45-52 | posting the dumped page back sends the five text inputs in order, then `on` for each checked box and nothing for the title |
| `ChannelVals.ResubmitRestores` | page_config_channel.h:6-20 | the form handler applied to the dumped page posted back unchanged gives back the record that was dumped, so `channel_count` is unchanged and the table is not rebuilt; this holds when `toInt` reads each dumped number back as itself |
| `PageConfigChannel.Device.constructor` | AmbientLights.h:88-90 | at boot the record is zero-initialised, the `mapping` pointer is null and nothing has been saved |
| `PageConfigChannel.Device.SaveConfig` | page_config_channel.h:31 | `saveConfig()` records one save of the record and the table as they stand at the call |
| `PageConfigChannel.Device.RebuildMapping` | page_config_channel.h:25-29 | a freshly allocated table of `channel_count` entries replaces the old one, filled with 1, 2, ..., `channel_count` |
| `PageConfigChannel.Device.ApplyOne` | page_config_channel.h:12-20 | one pass of the loop body changes the record as `ApplyParam` says and touches no other global |
| `PageConfigChannel.Device.HandleForm` | page_config_channel.h:4-41 | no parameters: 400, and record, table, saves and timestamp unchanged. Otherwise: 303, the record equals `FormResult`, and exactly one save of the final record and table. The timestamp becomes `now`. A changed count gives a fresh table equal to `DefaultMapping`; an unchanged count leaves the table pointer and contents as they were, even when the count changed and changed back within the request. A table that matched the count still matches it |
| `PageConfigChannel.Device.SendVals` | page_config_channel.h:43-55 | answers 200 with a body equal to `Dump` of the current record, built by appending the nine lines one by one |
| `PageConfigChannel.ByteIndexWraps` | page_config_channel.h:11 | the `uint8_t` loop counter holds `k mod 256` after `k` increments |
| `PageConfigChannel.ByteLoopNeverEnds` | page_config_channel.h:11 | with 256 or more parameters the loop condition holds after every number of increments, and the 257th pass is at index 0 again |

## Left out

- HTTP plumbing: the request and response objects, the `Location` header and `request->send` are left out. A handler's answer is its returned status code, and for `SendVals` also the body.
- `digitalWrite(PIN_D4, HIGH)` is a hardware side effect with no bearing on the record, so it is left out.
- `millis()` is clock I/O. It becomes the parameter `now` that `HandleForm` stores.
- `saveConfig()`, `serializeConfig()` and `loadConfig()` are only declared in the files shown, so their bodies are not part of this model. A save is a record appended to `Device.saves`.
- `malloc` and `free`: allocation always succeeds and freeing is implicit. The model does not capture an allocation failure or a dangling table.
- Arduino `String::toInt()` is an abstract `toInt` parameter whose result fits in a `long`. How it parses text, and what it returns for text that is not a number, is not modelled.
- `String(long)` is modelled as minus sign plus digits. Arduino's own conversion code is not part of this model.
- Wi-Fi, E1.31 reception, the PCA9685 driver and the slope, gamma and demo logic appear only as declarations, so they are not modelled.
- The page's JavaScript is not part of this model. `Resubmit` assumes the page posts each text input's value, posts a checkbox as `on` only when checked, and does not post the title.
- ChannelVals.DumpReadsBack: requires a device id without a newline. Such a newline would split the `devid` and `title` lines; the handler does not escape it.
- ChannelVals.DumpDeterminesConfig: requires device ids without a newline. This is a restriction of the proof only, which goes through the reader; the dump text itself is very likely injective for any ids, but that is not proved. `ValueLinesDetermine` states the same fact for the dumped lines without the restriction.
- ChannelVals.ResubmitRestores: requires `toInt` to read each dumped number back as itself, since `toInt` is abstract.
- Only the loop counter's `uint8_t` width is modelled as written. The main model counts parameters with an unbounded index, as the handler evidently intends (see Findings).

## Findings

| source | as written | input that shows it | evidently intended | confidence | as-written member | corrected member |
|---|---|---|---|---|---|---|
| page_config_channel.h:11 | the loop counter is `uint8_t`, so `i++` wraps from 255 to 0 while `i < request->params()` compares against the full count | a form request with 256 or more parameters: the counter never reaches the count, so the handler never returns, and the 257th pass re-reads parameter 0 | visit every parameter once and end, for any number of parameters | medium, not executed | `PageConfigChannel.ByteLoopNeverEnds` | `PageConfigChannel.Device.HandleForm` |
