# EnOcean device logic of the Home Assistant EnOcean integration, in Dafny

This project models the device classes of the EnOcean integration and the data helpers of its options flow. Each device class turns decoded radio telegrams into entity state, and turns user commands into the packets it sends.

- **Blind cover** (`EnOceanCover`). It reads the A5-11-03 blind-status fields EP, ST, PVF and BSP. It drives the blind with command 7 of A5-38-08: status, stop, open, close and drive-to-position, the last with P1 = 100 - position.
- **Positional cover** (`EnOceanVldCover`, D2-05-00). It keeps the confirmed raw position and an optimistic target. Opening, closing and closed are derived from those two values. It sends goto, stop and query commands.
- **Actuator switch** (`EnOceanSwitch`, D2-01-01). It switches on when an A5-12-01 meter reads more than one watt. An actuator-status telegram for its channel sets it on or off. It sends "change actuator" commands.
- **Dimmer light** (`EnOceanLight`). It converts between Home Assistant's 0..255 brightness and the dimmer's 0..100 value. It sends a fixed-layout 4BS frame.
- **Rocker buttons** (`EnOceanEvent`). It maps the action byte of F6-02-01/02 to a rocker and a side. Every telegram of seven bytes or more fires a `button_pressed` event record; a shorter one raises IndexError before anything is fired.
- **Options-flow helpers**:
  - parsing a comma-separated hex device id;
  - finding a device's kind and id in its registry identifiers;
  - normalising the switch channel;
  - merging per-platform device options into the config entry's data.

Layout:

- `Telegrams.dfy` holds the shared types:
  - a received telegram is its data bytes plus a map of decoded raw field values;
  - a sent packet is a record of its profile, addresses and field values;
  - Python's IndexError and KeyError are values of `Error`, and `Reception` holds the outcome of one `value_changed`.
- `Cover.dfy`, `Switch.dfy`, `Light.dfy` and `ButtonEvent.dfy` each hold one source module:
  - each state update is a specification function (`BlindReceive`, `VldReceive`, `SwitchReceive`, `LightReceive`, `ButtonPress`);
  - each entity is a class whose fields are the source's attributes;
  - each method is proved to agree with the function on its old state.
- `OptionsFlow.dfy` holds the helpers.
  - `update_config_data` is a method with the source's nested loops.
  - It is proved against a declarative definition of the merged data.

Where the code and the tests disagree, the model follows the code.

- `tests/components/enocean/test_cover.py` expects BSP=10 to read as 75 or 25 and a MOTP inversion of the position. `cover.py:87-102` and `cover.py:104-110` do neither: the position is `100 - BSP`, and MOTP is never read.
- That test file also imports `A5_FUNCTION_*` names that `cover.py` does not define.

## Model

| member | source | states |
|---|---|---|
| Cover.BlindPacket | homeassistant/components/enocean/cover.py:127-222 | every blind command is A5-38-08 command 7 from the sender to the device, with COM=7 and FUNC 0 status, 1 stop, 2 open, 3 close, 4 goto; only goto has PAF=1 and P1 = 100 - position, P2 = 0; every command has LRNB=1 and SMF=0, and SSF=0 only for the status request; no other fields |
| Cover.BlindPacketRoundTrip | homeassistant/components/enocean/cover.py:127-222 | a blind actuator reading any command the cover builds recovers that command, goto position included |
| Cover.BlindReceive | homeassistant/components/enocean/cover.py:87-102 | non-A5 telegrams change nothing; EP 3 closes, EP 2 opens, any other or no EP keeps `closed`; ST is stored as the cover state; PVF stores BSP as the position; empty data raises IndexError, PVF without BSP raises KeyError and nothing changes |
| Cover.BlindOpening | homeassistant/components/enocean/cover.py:112-115 | opening iff the stored ST value is 2 (STATE_OPENING) |
| Cover.BlindClosing | homeassistant/components/enocean/cover.py:117-120 | closing iff the stored ST value is 3 (STATE_CLOSING) |
| Cover.BlindNeverOpeningAndClosing | homeassistant/components/enocean/cover.py:112-120 | opening (ST 2) and closing (ST 3) never hold together |
| Cover.BlindGotoThenReport | homeassistant/components/enocean/cover.py:163-184 | when the actuator reports as BSP the P1 of a goto(p), the cover reports position p again |
| Cover.BlindCover.constructor | homeassistant/components/enocean/cover.py:69-75 | a new blind has no state, is not closed and has no known position |
| Cover.BlindCover.ValueChanged | homeassistant/components/enocean/cover.py:87-102 | the fields, raised error and notification are those of `BlindReceive` on the old fields |
| Cover.BlindCover.CurrentCoverPosition | homeassistant/components/enocean/cover.py:104-110 | reports 100 - raw position; while unknown, reports 100 and sends exactly one status request |
| Cover.BlindCover.IsOpening | homeassistant/components/enocean/cover.py:112-115 | opening iff the stored ST value is STATE_OPENING, and then not closing |
| Cover.BlindCover.IsClosing | homeassistant/components/enocean/cover.py:117-120 | closing iff the stored ST value is STATE_CLOSING |
| Cover.BlindCover.IsClosed | homeassistant/components/enocean/cover.py:122-125 | the closed flag as EP last set it |
| Cover.BlindCover.OpenCover | homeassistant/components/enocean/cover.py:127-143 | sends the open command (FUNC 2) |
| Cover.BlindCover.CloseCover | homeassistant/components/enocean/cover.py:145-161 | sends the close command (FUNC 3) |
| Cover.BlindCover.SetCoverPosition | homeassistant/components/enocean/cover.py:163-184 | sends a goto to the position iff it is in 0..100, nothing otherwise |
| Cover.BlindCover.StopCover | homeassistant/components/enocean/cover.py:186-202 | sends the stop command (FUNC 1) |
| Cover.BlindCover.RequestCurrentState | homeassistant/components/enocean/cover.py:204-222 | sends the status request (FUNC 0) |
| Cover.VldPacket | homeassistant/components/enocean/cover.py:270-318 | D2-05-00 commands to channel 0: goto is command 1 with POS = 100 - p, ANG 127, REPO 0, LOCK 0; stop is command 2; query is command 3 |
| Cover.VldPacketRoundTrip | homeassistant/components/enocean/cover.py:270-318 | an actuator reading any command the cover builds recovers that command |
| Cover.VldReceive | homeassistant/components/enocean/cover.py:253-260 | a D2 telegram with POS sets the raw position, every D2 telegram notifies, others change nothing; the target is never touched; empty data raises IndexError |
| Cover.VldPublicPosition | homeassistant/components/enocean/cover.py:262-268 | None iff the raw position is unknown; otherwise public and raw positions add up to 100, so a raw 0..100 gives a public 0..100 |
| Cover.VldClosed | homeassistant/components/enocean/cover.py:246-251 | closed iff raw position 100 (public position 0); raw 0 is open; unknown while the position is unknown |
| Cover.VldOpening | homeassistant/components/enocean/cover.py:320-327 | opening iff the public position is below the target; False without a target; None without a position |
| Cover.VldClosing | homeassistant/components/enocean/cover.py:329-336 | closing iff the public position is above the target; False without a target; None without a position |
| Cover.VldNeverOpeningAndClosing | homeassistant/components/enocean/cover.py:320-336 | the VLD cover is never opening and closing at once |
| Cover.VldStopEndsMotion | homeassistant/components/enocean/cover.py:291-303 | after stop, with a known position, neither opening nor closing |
| Cover.VldTargetSurvivesTelegrams | homeassistant/components/enocean/cover.py:253-260 | no sequence of received telegrams changes the optimistic target |
| Cover.VldDirectionStuckWithoutPositions | homeassistant/components/enocean/cover.py:253-260 | a sequence of telegrams without POS leaves the whole state, and so the reported direction, unchanged |
| Cover.VldDirectionAfterReport | homeassistant/components/enocean/cover.py:320-336 | after goto(target), a position report decides opening/closing by comparing it with the target, and the report of the target itself ends both |
| Cover.VldCover.constructor | homeassistant/components/enocean/cover.py:228-234 | a new VLD cover has neither position nor target |
| Cover.VldCover.ValueChanged | homeassistant/components/enocean/cover.py:253-260 | the fields, raised error and notification are those of `VldReceive` on the old fields |
| Cover.VldCover.CurrentCoverPosition | homeassistant/components/enocean/cover.py:262-268 | reports 100 - raw, or None and a query while unknown |
| Cover.VldCover.IsClosed | homeassistant/components/enocean/cover.py:246-251 | the answer of `VldClosed`, with a query while the position is unknown |
| Cover.VldCover.IsOpening | homeassistant/components/enocean/cover.py:320-327 | the answer of `VldOpening`, with a query while the position is unknown |
| Cover.VldCover.IsClosing | homeassistant/components/enocean/cover.py:329-336 | the answer of `VldClosing`, with a query while the position is unknown |
| Cover.VldCover.SetCoverPosition | homeassistant/components/enocean/cover.py:270-289 | in range 0..100: sends the goto and makes the position the target; out of range: sends nothing and changes nothing |
| Cover.VldCover.StopCover | homeassistant/components/enocean/cover.py:291-303 | sends stop and clears the target |
| Cover.VldCover.RequestCurrentState | homeassistant/components/enocean/cover.py:305-318 | sends the query command |
| Cover.VldCover.OpenCover | homeassistant/components/enocean/cover.py:338-340 | is goto(100): sends it, target 100 |
| Cover.VldCover.CloseCover | homeassistant/components/enocean/cover.py:342-344 | is goto(0): sends it, target 0 |
| Switch.WattsAboveOne | homeassistant/components/enocean/switch.py:100-106 | the test MR / 10^DIV > 1 on reals is the integer test MR > 10^DIV |
| Switch.ActuatorPacket | homeassistant/components/enocean/switch.py:63-93 | a D2-01-01 command 1 from sender to device with DV 0 and the given IO and OV |
| Switch.SwitchReceive | homeassistant/components/enocean/switch.py:95-117 | an A5 meter reading above one watt switches on, and A5 never switches off; a D2 status (CMD 4) for the switch's channel, or any channel when it listens to all, sets on iff OV > 0; everything else changes nothing; KeyError exactly when DT is missing, MR or DIV is missing with DT 1, CMD is missing, or IO or OV is missing with CMD 4, naming the first missing field read; a raise changes nothing |
| Switch.StatusOverridesOptimisticState | homeassistant/components/enocean/switch.py:107-117 | the status reply for the switch's channel decides the state, whatever the optimistic state was |
| Switch.OtherChannelIgnored | homeassistant/components/enocean/switch.py:107-117 | a status for another channel is ignored unless the switch listens to all channels |
| Switch.EnOceanSwitch.constructor | homeassistant/components/enocean/switch.py:44-51 | a new switch is off |
| Switch.EnOceanSwitch.IsOn | homeassistant/components/enocean/switch.py:53-56 | the state last set by a command or a telegram |
| Switch.EnOceanSwitch.TurnOn | homeassistant/components/enocean/switch.py:63-77 | sends IO = configured channel, OV = 0x64, and is on |
| Switch.EnOceanSwitch.TurnOff | homeassistant/components/enocean/switch.py:79-93 | sends IO = 0x1E, OV = 0 whatever the channel, and is off |
| Switch.EnOceanSwitch.ValueChanged | homeassistant/components/enocean/switch.py:95-117 | the new state, raised error and notification are those of `SwitchReceive` |
| Light.DimValue | homeassistant/components/enocean/light.py:108-110 | the value byte is floor(b * 100 / 256), raised to 1 when 0: never 0, and in 1..99 for b in 0..255 |
| Light.BrightnessOf | homeassistant/components/enocean/light.py:125-135 | the brightness is floor(value * 256 / 100): 0 iff the value is 0, at most 256 for values up to 100 |
| Light.DimValueAfterBrightnessOf | homeassistant/components/enocean/light.py:108-133 | reading a value 1..100 and sending it again gives the value or one less |
| Light.DimValueLosesAStep | homeassistant/components/enocean/light.py:108-133 | the step is lost: 99 reads as 253, which is sent as 98 |
| Light.DimmerFrame | homeassistant/components/enocean/light.py:102-115 | the frame is A5 02 value 01 09, the sender id bytes, then 00, as packet type 1 with no optional data |
| Light.DimmerFrameRoundTrip | homeassistant/components/enocean/light.py:102-135 | the light reads the value of its own dimmer frame back |
| Light.LightReceive | homeassistant/components/enocean/light.py:125-135 | a 4BS dimmer telegram (data[1] 0x02) sets on iff its value is non-zero and the brightness from the value; others change nothing; too-short data raises IndexError |
| Light.OwnOnFrameKeepsLightOn | homeassistant/components/enocean/light.py:102-135 | a light that hears its own "on" frame stays on, and its next "on" frame carries the same value or one less |
| Light.UniqueId | homeassistant/components/enocean/light.py:147-149 | "light-" followed by the hex id |
| Light.EnOceanLight.UniqueIdOf | homeassistant/components/enocean/light.py:147-149 | "light-" followed by the light's hex id |
| Light.EnOceanLight.constructor | homeassistant/components/enocean/light.py:71-76 | a new light is off with brightness 50 |
| Light.EnOceanLight.TurnOn | homeassistant/components/enocean/light.py:102-115 | stores the requested brightness or keeps the old one, sends the dimmer frame for it, and is on |
| Light.EnOceanLight.TurnOff | homeassistant/components/enocean/light.py:117-123 | sends the frame with value 0, is off, keeps the brightness |
| Light.EnOceanLight.ValueChanged | homeassistant/components/enocean/light.py:125-135 | the new fields, raised error and notification are those of `LightReceive` |
| ButtonEvent.Pushed | homeassistant/components/enocean/enocean_event.py:83-86 | 1 iff status 0x30, 0 iff status 0x20, None otherwise |
| ButtonEvent.ButtonOf | homeassistant/components/enocean/enocean_event.py:90-108 | a button exactly for the six action bytes 0x70, 0x50, 0x30, 0x10, 0x37, 0x15; which is 0, 1 or 10 and onoff 0 or 1; the double press (10) only for bytes with the second-action bit |
| ButtonEvent.ButtonTableFollowsProfile | homeassistant/components/enocean/enocean_event.py:90-108 | for every action byte, the integration's table agrees with reading the F6-02-01 bit fields (R1, EB, R2, SA): single buttons, and rocker A then rocker B on the same side (0x37, 0x15); the B-first double presses 0x51 and 0x73 are not recognised |
| ButtonEvent.ButtonPress | homeassistant/components/enocean/enocean_event.py:68-119 | data of seven bytes or more always fires one event with the id, hex id, pushed, which, onoff and name; a known action byte sets (which, onoff), an unknown one keeps them; shorter data raises IndexError and fires nothing |
| ButtonEvent.DocumentedPressAndRelease | homeassistant/components/enocean/enocean_event.py:74-78 | the documented press of 0x10 gives which 1, onoff 1, pushed 1, and the release gives pushed 0 with which/onoff kept |
| ButtonEvent.UniqueId | homeassistant/components/enocean/enocean_event.py:131-133 | "event-" followed by the hex id |
| ButtonEvent.EnOceanEvent.constructor | homeassistant/components/enocean/enocean_event.py:48-53 | which and onoff start at -1 |
| ButtonEvent.EnOceanEvent.UniqueIdOf | homeassistant/components/enocean/enocean_event.py:131-133 | "event-" followed by the device's hex id |
| ButtonEvent.EnOceanEvent.ValueChanged | homeassistant/components/enocean/enocean_event.py:68-119 | the new fields, raised error and fired event are those of `ButtonPress` |
| OptionsFlow.Split | homeassistant/components/enocean/options_flow.py:424 | the pieces of `str.split`: at least one, none containing the separator, joined back they give the input |
| OptionsFlow.SplitJoin | homeassistant/components/enocean/options_flow.py:424 | splitting a join of separator-free pieces gives the pieces back |
| OptionsFlow.ParseHexInt | homeassistant/components/enocean/options_flow.py:424 | `int(x, 16)`: the empty string is rejected; bare hex digits (with single underscores between them) read as their value, also after a `0x` prefix, and negated after a `-` |
| OptionsFlow.ParseHexIntAccepts | homeassistant/components/enocean/options_flow.py:424 | every literal of the accepted grammar parses, to its value: white space, an optional sign, an optional `0x`/`0X` prefix with one optional underscore, hex digits with single underscores between them, white space; negated after `-` |
| OptionsFlow.ParseHexIntRejects | homeassistant/components/enocean/options_flow.py:424 | only literals of that grammar parse: a stray character, a bare prefix, a doubled, leading or trailing underscore, a second sign or an empty digit part raise ValueError |
| OptionsFlow.HexDigits | homeassistant/components/enocean/options_flow.py:587-592 | the digits of `hex(n)` are lower-case hex digits without a leading zero, whose value is n |
| OptionsFlow.PythonHex | homeassistant/components/enocean/options_flow.py:587-592 | `hex(n)` is `0x` and then well-formed lower-case digits of value n, with no comma |
| OptionsFlow.ParseHexOfPythonHex | homeassistant/components/enocean/options_flow.py:587-592 | `int(hex(n), 16) == n`: the parser accepts the `0x` form that `hex` writes |
| OptionsFlow.ParseAll | homeassistant/components/enocean/options_flow.py:424 | the list of parsed pieces exists iff every piece parses, and then holds each piece's value in order |
| OptionsFlow.DeviceIdOrNone | homeassistant/components/enocean/options_flow.py:421-430 | None iff some comma-separated piece is not hex or not in 0..255; otherwise one byte per piece, in order |
| OptionsFlow.FormatDeviceId | homeassistant/components/enocean/options_flow.py:587-592 | `",".join(map(hex, id))` splits at commas into exactly `hex` of each byte, in order |
| OptionsFlow.DeviceIdRoundTrip | homeassistant/components/enocean/options_flow.py:587-592 | the text the switch form shows for a stored id, `",".join(map(hex, id))`, parses back to that id |
| OptionsFlow.EmptyDeviceIdRejected | homeassistant/components/enocean/options_flow.py:421-430 | an empty input is no id |
| OptionsFlow.Contains | homeassistant/components/enocean/options_flow.py:82 | `sub in s` iff sub occurs at some position of s |
| OptionsFlow.SecondDashPart | homeassistant/components/enocean/options_flow.py:84 | `split("-")[1]` raises IndexError iff there is no dash; otherwise it is the second piece of the split: a dash-free piece between the first dash and the next dash or the end |
| OptionsFlow.Matches | homeassistant/components/enocean/options_flow.py:82 | a match iff the identifier has two members and the type occurs in the second |
| OptionsFlow.EnoceanIdOf | homeassistant/components/enocean/options_flow.py:80-85 | None iff no identifier has length 2 and a second member containing the type; otherwise the result for the first such identifier |
| OptionsFlow.GetEnoceanId | homeassistant/components/enocean/options_flow.py:80-85 | the search loop returns what `EnoceanIdOf` describes |
| OptionsFlow.IsDeviceType | homeassistant/components/enocean/options_flow.py:77-78 | true iff some identifier matches the type (when the search does not raise) |
| OptionsFlow.LightIdRoundTrip | homeassistant/components/enocean/options_flow.py:80-85 | the identifier (domain, "light-" + h) of a light gives h back, for any dash-free h |
| OptionsFlow.EventIdRoundTrip | homeassistant/components/enocean/options_flow.py:80-85 | the identifier (domain, "event-" + h) of a button gives h back, for any dash-free h |
| OptionsFlow.NormaliseChannel | homeassistant/components/enocean/options_flow.py:272-274 | the "all channels" box gives the sentinel, otherwise the number entered; a form without the box (the create form has no default for it) raises KeyError("all_channels") |
| OptionsFlow.ChannelFormDefaults | homeassistant/components/enocean/options_flow.py:577-582 | the sentinel is shown as (True, 0), any other channel as (False, channel) |
| OptionsFlow.ChannelRoundTrip | homeassistant/components/enocean/options_flow.py:577-582 | saving the switch form with the defaults shown for a stored channel stores that channel again |
| OptionsFlow.FormRoundTrip | homeassistant/components/enocean/options_flow.py:272-274 | "all channels" is stored as the sentinel and shown as (True, 0); any other channel is stored and shown as entered |
| OptionsFlow.Merge | homeassistant/components/enocean/options_flow.py:668-674 | in one platform, devices given None are gone, devices given options have them, all others are unchanged |
| OptionsFlow.Requests | homeassistant/components/enocean/options_flow.py:659-664 | the call visits exactly the covers, sensors, switches and lights platforms, each with its own argument's changes, None standing for no changes |
| OptionsFlow.Updated | homeassistant/components/enocean/options_flow.py:665-674 | every visited platform is present and merged, every other key of the data is unchanged |
| OptionsFlow.ApplyChanges | homeassistant/components/enocean/options_flow.py:668-674 | the loop over one platform's changes gives `Merge`, or a KeyError naming a device to remove that is not there, exactly when there is one |
| OptionsFlow.UpdateConfigData | homeassistant/components/enocean/options_flow.py:647-679 | a KeyError exactly when some removal names a missing device, and then no update; otherwise the data of `Updated`, with a reload scheduled iff nothing was removed |

## Left out

- Sending (`send_command`, `send_packet`), state writes (`schedule_update_ha_state`) and `hass.bus.fire` are I/O. Each method returns what it would send or fire as a value; `notified` stands for the state write.
- The EnOcean library's `RadioPacket.create`, `parse_eep` and bit layouts are not part of this model. A packet is the values of its fields, and a received telegram is its data bytes plus the raw field values `parse_eep` would decode.
- `to_hex_string` belongs to the EnOcean library. Each class takes its result as the `hexId` parameter, and the id round trips require it to contain no dash.
- `SWITCH_ALL_CHANNELS` and `DOMAIN` come from `const.py`, which is not part of this model. The channel sentinel is an abstract constant.
- The platform keys `covers`, `sensors`, `switches` and `lights` come from `homeassistant.const`. They are written out.
- Floating point is not modelled. `light.py:108` and `light.py:133` use exact integer division. The switch's watt test uses `MR > 10^DIV`, whose equivalence with the real division is proved.
- `int(x, 16)` is modelled for ASCII input only. Python also accepts other Unicode digits and white space.
- OptionsFlow.GetEnoceanId: a Python set has some iteration order. The identifiers are a sequence in that order. When several identifiers match, which one is found depends on that order.
- OptionsFlow.UpdateConfigData: dict iteration order is not modelled, since the changes of a platform are a map. When several removals name missing devices, the KeyError names one of them and the order does not say which.
- `update_config_data` never reads its `global_options` argument, so the model has none. The call to `async_update_entry` and the reload task are represented by the returned data and the `reload` flag.
- The `async_step_*` form flows, voluptuous schemas, device and entity registry access, `__init__.py` setup and the dispatcher wiring are framework plumbing.
- The `name`, `supported_features`, `device_info` and `should_poll` properties are not modelled; they are constant or pass-through.
- The `EnOceanEntity` base class (`device.py`) is not modelled; the class fields and `value_changed` stand in for it.
- The VLD cover's `channel` argument is stored but never used by the source. The model stores it too.
