/** The dimmer light (light.py): 4BS dimmer frames (A5-38-08 command 2 layout,
    data byte 0x02) sent as raw command lists, and 4BS dimmer telegrams
    read back into a brightness on Home Assistant's 0..255 scale. */
module Light {
  import opened Telegrams

  /** The brightness a new light starts with. */
  const InitialBrightness := 50

  /** The dimmer value byte for a brightness: floor(brightness / 256 * 100),
      raised to 1 when it would be 0, so that an "on" frame never carries the
      zero that means "off". */
  function DimValue(brightness: int): (v: int)
    ensures v != 0
    ensures brightness >= 0 ==> v >= 1
    ensures 0 <= brightness <= 255 ==> 1 <= v <= 99
    ensures brightness >= 0 && v > 1 ==> v * 256 <= brightness * 100 < (v + 1) * 256
    ensures brightness >= 0 && v == 1 ==> brightness * 100 < 2 * 256
  {
    var v := (brightness * 100) / 256;
    if v == 0 then 1 else v
  }

  /** The brightness a dimmer value stands for: floor(value / 100 * 256). */
  function BrightnessOf(value: int): (b: int)
    ensures value >= 0 ==> b >= 0 && b * 100 <= value * 256 < b * 100 + 100
    ensures 0 <= value <= 100 ==> b <= 256
    ensures value == 0 <==> b == 0
  {
    (value * 256) / 100
  }

  /** Reading a dimmer value back and sending it again loses at most one step. */
  lemma DimValueAfterBrightnessOf(value: int)
    requires 1 <= value <= 100
    ensures DimValue(BrightnessOf(value)) == value || DimValue(BrightnessOf(value)) == value - 1
  {
  }

  /** ... and the step is lost for some values: 99 is read as 253, sent as 98. */
  lemma DimValueLosesAStep()
    ensures BrightnessOf(99) == 253 && DimValue(253) == 98
  {
  }

  /** The command list the light sends: 4BS, dimmer function 0x02, the value,
      ramp 1, data / switch-on flags 0x09, the sender id bytes, status 0. */
  function DimmerFrame(value: int, sender: seq<int>): (p: Packet)
    ensures p.Frame? && p.optional == [] && p.packetType == 0x01
    ensures |p.data| == 6 + |sender|
    ensures p.data[..5] == [RorgBs4, 0x02, value, 0x01, 0x09]
    ensures p.data[5..5 + |sender|] == sender
    ensures p.data[|p.data| - 1] == 0x00
  {
    Frame([RorgBs4, 0x02, value, 0x01, 0x09] + sender + [0x00], [], 0x01)
  }

  /** The dimmer value a 4BS dimmer frame carries, as the light reads it. */
  function DimmerValueOf(data: seq<int>): Option<int>
  {
    if |data| >= 3 && data[0] == RorgBs4 && data[1] == 0x02 then Some(data[2]) else None
  }

  lemma DimmerFrameRoundTrip(value: int, sender: seq<int>)
    ensures DimmerValueOf(DimmerFrame(value, sender).data) == Some(value)
  {
  }

  /** The two fields of `EnOceanLight` that change. */
  datatype LightState = LightState(on: bool, brightness: int)

  /** `EnOceanLight.value_changed`: only a 4BS telegram with data[1] == 0x02
      is read; its data[2] sets brightness and on/off. Data too short for the
      byte being read raises IndexError. */
  function LightReceive(s: LightState, t: Telegram): (r: Reception<LightState>)
    ensures DimmerValueOf(t.data).Some? ==>
              r == Reception(None, LightState(t.data[2] != 0, BrightnessOf(t.data[2])), true)
    ensures DimmerValueOf(t.data).None? ==> r.state == s && !r.notified
    ensures r.raised.Some? <==>
              |t.data| == 0 || (t.data[0] == RorgBs4 && (|t.data| == 1 || (t.data[1] == 0x02 && |t.data| == 2)))
    ensures r.raised.Some? ==> r.raised.value == IndexError
  {
    if |t.data| == 0 then Reception(Some(IndexError), s, false)
    else if t.data[0] != RorgBs4 then Reception(None, s, false)
    else if |t.data| == 1 then Reception(Some(IndexError), s, false)
    else if t.data[1] != 0x02 then Reception(None, s, false)
    else if |t.data| == 2 then Reception(Some(IndexError), s, false)
    else
      var value := t.data[2];
      Reception(None, LightState(value != 0, BrightnessOf(value)), true)
  }

  /** A light that hears its own "on" frame stays on, with a brightness that
      the next turn_on sends to within one step of the same value. */
  lemma OwnOnFrameKeepsLightOn(s: LightState, brightness: int, sender: seq<int>)
    requires 0 <= brightness <= 255
    ensures var v := DimValue(brightness);
            var r := LightReceive(s, Telegram(DimmerFrame(v, sender).data, map[]));
            r.state.on && (DimValue(r.state.brightness) == v || DimValue(r.state.brightness) == v - 1)
  {
    DimValueAfterBrightnessOf(DimValue(brightness));
  }

  /** The unique id: "light-" followed by the hex form of the device id. */
  function UniqueId(hexId: string): (u: string)
    ensures |u| == 6 + |hexId| && u[..6] == "light-" && u[6..] == hexId
  {
    "light-" + hexId
  }

  /** `EnOceanLight`. `hexId` is `to_hex_string(dev_id)`, which belongs to the
      EnOcean library and is not part of this model. */
  class EnOceanLight {
    const senderId: seq<int>
    const devId: seq<int>
    const devName: string
    const hexId: string
    var onState: bool
    var brightness: int

    constructor (senderId: seq<int>, devId: seq<int>, devName: string, hexId: string)
      ensures this.senderId == senderId && this.devId == devId
      ensures this.devName == devName && this.hexId == hexId
      ensures State() == LightState(false, InitialBrightness)
    {
      this.senderId := senderId;
      this.devId := devId;
      this.devName := devName;
      this.hexId := hexId;
      onState := false;
      brightness := InitialBrightness;
    }

    function State(): LightState
      reads this
    {
      LightState(onState, brightness)
    }

    /** Without a brightness argument the stored brightness is sent again. */
    method TurnOn(requested: Option<int>) returns (sent: Packet)
      modifies this
      ensures brightness == if requested.Some? then requested.value else old(brightness)
      ensures sent == DimmerFrame(DimValue(brightness), senderId)
      ensures onState
    {
      if requested.Some? {
        brightness := requested.value;
      }
      var value := (brightness * 100) / 256;
      if value == 0 {
        value := 1;
      }
      var command := [RorgBs4, 0x02, value, 0x01, 0x09];
      command := command + senderId;
      command := command + [0x00];
      sent := Frame(command, [], 0x01);
      onState := true;
    }

    /** Off is the same frame with value 0; the brightness is kept. */
    method TurnOff() returns (sent: Packet)
      modifies this
      ensures sent == DimmerFrame(0x00, senderId)
      ensures State() == old(State()).(on := false)
    {
      var command := [RorgBs4, 0x02, 0x00, 0x01, 0x09];
      command := command + senderId;
      command := command + [0x00];
      sent := Frame(command, [], 0x01);
      onState := false;
    }

    method ValueChanged(t: Telegram) returns (raised: Option<Error>, notified: bool)
      modifies this
      ensures Reception(raised, State(), notified) == LightReceive(old(State()), t)
    {
      raised, notified := None, false;
      if |t.data| == 0 {
        return Some(IndexError), false;
      }
      if t.data[0] == RorgBs4 {
        if |t.data| == 1 {
          return Some(IndexError), false;
        }
        if t.data[1] == 0x02 {
          if |t.data| == 2 {
            return Some(IndexError), false;
          }
          var value := t.data[2];
          brightness := (value * 256) / 100;
          onState := value != 0;
          notified := true;
        }
      }
    }

    function UniqueIdOf(): (u: string)
      reads this
      ensures |u| == 6 + |hexId| && u[..6] == "light-" && u[6..] == hexId
    {
      UniqueId(hexId)
    }
  }
}
