/** The actuator switch (switch.py): switched with D2-01-01 command 1, and
    told its state either by an A5-12-01 power-meter reading or by a
    D2-01-01 actuator-status telegram (command 4). */
module Switch {
  import opened Telegrams

  /** The channel value that means "every channel of the actuator". Its value
      comes from const.py, which is not part of this model. */
  const SwitchAllChannels: nat

  /** The IO value `turn_off` always sends. */
  const OffChannel := 0x1E

  /** 10 to the power n. */
  function Pow10(n: nat): (r: nat)
    ensures r >= 1
  {
    if n == 0 then 1 else 10 * Pow10(n - 1)
  }

  /** The source's test `MR / 10**DIV > 1`, computed exactly, is the integer
      test `MR > 10**DIV`. */
  lemma WattsAboveOne(mr: nat, div: nat)
    ensures (mr as real) / (Pow10(div) as real) > 1.0 <==> mr > Pow10(div)
  {
    RatioAboveOne(mr, Pow10(div));
  }

  lemma RatioAboveOne(m: nat, p: nat)
    requires p >= 1
    ensures (m as real) / (p as real) > 1.0 <==> m > p
  {
    var d := p as real;
    var w := (m as real) / d;
    assert w * d == m as real;
    if m > p {
      if w <= 1.0 {
        ScaleMonotone(w, 1.0, d);
        assert false;
      }
    } else {
      if w > 1.0 {
        ScaleMonotone(1.0, w, d);
        assert false;
      }
    }
  }

  /** Multiplying by a positive real keeps the order. */
  lemma ScaleMonotone(a: real, b: real, d: real)
    requires a <= b && d > 0.0
    ensures a * d <= b * d
    ensures a < b ==> a * d < b * d
  {
    var e := b - a;
    assert b * d == a * d + e * d;
    if e > 0.0 {
      assert e * d > 0.0;
    }
  }

  /** The D2-01-01 "change actuator" command: no dimming, output value `ov`
      on channel `io`. */
  function ActuatorPacket(sender: seq<int>, destination: seq<int>, io: int, ov: int): (p: Packet)
    ensures p.Radio? && p.rorg == RorgVld && p.rorgFunc == 0x01 && p.rorgType == 0x01
    ensures p.sender == sender && p.destination == destination && p.command == 1
    ensures p.fields == map["DV" := 0, "IO" := io, "OV" := ov]
  {
    Radio(RorgVld, 0x01, 0x01, sender, destination, 1, map["DV" := 0, "IO" := io, "OV" := ov])
  }

  /** The packet `turn_on` sends: output 100% on the configured channel. */
  function OnPacket(sender: seq<int>, destination: seq<int>, channel: nat): Packet
  {
    ActuatorPacket(sender, destination, channel, 0x64)
  }

  /** The packet `turn_off` sends: output 0 on channel 0x1E. */
  function OffPacket(sender: seq<int>, destination: seq<int>): Packet
  {
    ActuatorPacket(sender, destination, OffChannel, 0)
  }

  /** Whether a telegram's IO channel concerns a switch configured for `channel`. */
  predicate ChannelMatches(channel: nat, io: nat)
  {
    io == channel || channel == SwitchAllChannels
  }

  /** A power-meter reading (A5-12-01) that switches on: a value (DT=1) of
      more than one watt. */
  predicate MeterReadsOn(t: Telegram)
  {
    && "DT" in t.parsed && t.parsed["DT"] == 1
    && "MR" in t.parsed && "DIV" in t.parsed
    && t.parsed["MR"] > Pow10(t.parsed["DIV"])
  }

  /** An actuator-status telegram (D2-01-01 command 4) for `channel`. */
  predicate StatusFor(channel: nat, t: Telegram)
  {
    && "CMD" in t.parsed && t.parsed["CMD"] == 4
    && "IO" in t.parsed && "OV" in t.parsed
    && ChannelMatches(channel, t.parsed["IO"])
  }

  /** `EnOceanSwitch.value_changed`: the new on/off state. A 4BS packet is read
      as A5-12-01, a VLD packet as D2-01-01; a missing field raises KeyError. */
  function SwitchReceive(channel: nat, on: bool, t: Telegram): (r: Reception<bool>)
    ensures r.raised.Some? ==> r.state == on && !r.notified
    ensures r.raised == Some(IndexError) <==> |t.data| == 0
    // a power-meter reading above one watt switches on; it never switches off
    ensures |t.data| > 0 && t.data[0] == RorgBs4 ==> (on ==> r.state)
    ensures |t.data| > 0 && t.data[0] == RorgBs4 && r.raised.None? ==> (r.notified <==> MeterReadsOn(t))
    ensures |t.data| > 0 && t.data[0] == RorgBs4 && MeterReadsOn(t) ==> r == Reception(None, true, true)
    ensures r.notified ==> r.raised.None?
    // a field read before it is known to be there raises KeyError, naming it
    ensures r.raised.Some? && r.raised.value.KeyError? <==>
              |t.data| > 0 &&
              ((t.data[0] == RorgBs4 && ("DT" !in t.parsed || (t.parsed["DT"] == 1 && ("MR" !in t.parsed || "DIV" !in t.parsed)))) ||
               (t.data[0] == RorgVld && ("CMD" !in t.parsed || (t.parsed["CMD"] == 4 && ("IO" !in t.parsed || "OV" !in t.parsed)))))
    ensures r.raised.Some? && r.raised.value.KeyError? ==>
              r.raised.value.key !in t.parsed &&
              r.raised.value.key == (if t.data[0] == RorgBs4 then
                                       (if "DT" !in t.parsed then "DT" else if "MR" !in t.parsed then "MR" else "DIV")
                                     else
                                       (if "CMD" !in t.parsed then "CMD" else if "IO" !in t.parsed then "IO" else "OV"))
    ensures r.state != on ==> r.notified
    // an actuator status for this switch's channel sets the state from its output value
    ensures |t.data| > 0 && t.data[0] == RorgVld && r.raised.None? ==> (r.notified <==> StatusFor(channel, t))
    ensures |t.data| > 0 && t.data[0] == RorgVld && StatusFor(channel, t) ==>
              r == Reception(None, t.parsed["OV"] > 0, true)
    // every other packet is ignored
    ensures |t.data| > 0 && t.data[0] != RorgBs4 && t.data[0] != RorgVld ==> r == Reception(None, on, false)
  {
    if |t.data| == 0 then Reception(Some(IndexError), on, false)
    else if t.data[0] == RorgBs4 then
      if "DT" !in t.parsed then Reception(Some(KeyError("DT")), on, false)
      else if t.parsed["DT"] != 1 then Reception(None, on, false)
      else if "MR" !in t.parsed then Reception(Some(KeyError("MR")), on, false)
      else if "DIV" !in t.parsed then Reception(Some(KeyError("DIV")), on, false)
      else if t.parsed["MR"] > Pow10(t.parsed["DIV"]) then Reception(None, true, true)
      else Reception(None, on, false)
    else if t.data[0] == RorgVld then
      if "CMD" !in t.parsed then Reception(Some(KeyError("CMD")), on, false)
      else if t.parsed["CMD"] != 4 then Reception(None, on, false)
      else if "IO" !in t.parsed then Reception(Some(KeyError("IO")), on, false)
      else if "OV" !in t.parsed then Reception(Some(KeyError("OV")), on, false)
      else if ChannelMatches(channel, t.parsed["IO"]) then Reception(None, t.parsed["OV"] > 0, true)
      else Reception(None, on, false)
    else Reception(None, on, false)
  }

  /** The actuator-status telegram (D2-01-01 command 4) for channel `io`
      reporting output value `ov`. */
  function StatusTelegram(io: nat, ov: nat): Telegram
  {
    Telegram([RorgVld], map["CMD" := 4, "IO" := io, "OV" := ov])
  }

  /** The actuator's status reply confirms or corrects the optimistic state:
      after it the switch is on iff the reported output is non-zero, whatever
      the switch believed before. */
  lemma StatusOverridesOptimisticState(channel: nat, on: bool, ov: nat)
    ensures SwitchReceive(channel, on, StatusTelegram(channel, ov)) == Reception(None, ov > 0, true)
  {
  }

  /** A status for another channel is ignored unless the switch listens to all
      channels. */
  lemma OtherChannelIgnored(channel: nat, on: bool, io: nat, ov: nat)
    requires io != channel && channel != SwitchAllChannels
    ensures SwitchReceive(channel, on, StatusTelegram(io, ov)) == Reception(None, on, false)
  {
  }

  /** `EnOceanSwitch`. */
  class EnOceanSwitch {
    const devId: seq<int>
    const devName: string
    const channel: nat
    const senderId: seq<int>
    var onState: bool

    constructor (devId: seq<int>, devName: string, channel: nat, senderId: seq<int>)
      ensures this.devId == devId && this.devName == devName
      ensures this.channel == channel && this.senderId == senderId
      ensures !onState
    {
      this.devId := devId;
      this.devName := devName;
      this.channel := channel;
      this.senderId := senderId;
      onState := false;
    }

    /** `is_on`: the state last set by a command or a telegram. */
    predicate IsOn()
      reads this
      ensures IsOn() <==> onState
    {
      onState
    }

    method TurnOn() returns (sent: Packet)
      modifies this
      ensures sent == OnPacket(senderId, devId, channel)
      ensures onState
    {
      sent := ActuatorPacket(senderId, devId, channel, 0x64);
      onState := true;
    }

    /** Whatever the configured channel, off is sent to channel 0x1E. */
    method TurnOff() returns (sent: Packet)
      modifies this
      ensures sent == OffPacket(senderId, devId)
      ensures !onState
    {
      sent := ActuatorPacket(senderId, devId, OffChannel, 0);
      onState := false;
    }

    method ValueChanged(t: Telegram) returns (raised: Option<Error>, notified: bool)
      modifies this
      ensures Reception(raised, onState, notified) == SwitchReceive(channel, old(onState), t)
    {
      raised, notified := None, false;
      if |t.data| == 0 {
        return Some(IndexError), false;
      }
      if t.data[0] == RorgBs4 {
        if "DT" !in t.parsed {
          return Some(KeyError("DT")), false;
        }
        if t.parsed["DT"] == 1 {
          if "MR" !in t.parsed {
            return Some(KeyError("MR")), false;
          }
          var rawVal := t.parsed["MR"];
          if "DIV" !in t.parsed {
            return Some(KeyError("DIV")), false;
          }
          var divisor := t.parsed["DIV"];
          if rawVal > Pow10(divisor) {
            onState := true;
            notified := true;
          }
        }
      } else if t.data[0] == RorgVld {
        if "CMD" !in t.parsed {
          return Some(KeyError("CMD")), false;
        }
        if t.parsed["CMD"] == 4 {
          if "IO" !in t.parsed {
            return Some(KeyError("IO")), false;
          }
          var io := t.parsed["IO"];
          if "OV" !in t.parsed {
            return Some(KeyError("OV")), false;
          }
          var output := t.parsed["OV"];
          if io == channel || channel == SwitchAllChannels {
            onState := output > 0;
            notified := true;
          }
        }
      }
    }
  }
}
