/** Covers (cover.py): the 4BS blind cover, which reads the A5-11-03 blind
    status profile and drives the blind with command 7 of A5-38-08, and the
    VLD cover, which speaks D2-05-00 (position telegrams and goto / stop /
    query commands). */
module Cover {
  import opened Telegrams

  /** Raw values of the ST (state) field of A5-11-03. */
  const StateNoState := 0
  const StateStopped := 1
  const StateOpening := 2
  const StateClosing := 3

  // ---------------------------------------------------------------------
  // Blind cover (A5-11-03 in, A5-38-08 command 7 out)
  // ---------------------------------------------------------------------

  /** The commands `EnOceanCover` sends. */
  datatype BlindRequest = BlindStatus | BlindStop | BlindOpen | BlindClose | BlindGoto(position: int)

  /** The FUNC code of each command in A5-38-08 command 7. */
  function BlindFunc(req: BlindRequest): int
  {
    match req
    case BlindStatus => 0
    case BlindStop => 1
    case BlindOpen => 2
    case BlindClose => 3
    case BlindGoto(_) => 4
  }

  /** The packet `EnOceanCover` builds for a command. Only the drive-to-position
      command carries a position (P1 = 100 - position, no angle); only the
      status request asks the actuator not to send its new status (SSF=0). */
  function BlindPacket(sender: seq<int>, destination: seq<int>, req: BlindRequest): (p: Packet)
    ensures p.Radio? && p.rorg == RorgBs4 && p.rorgFunc == 0x38 && p.rorgType == 0x08
    ensures p.sender == sender && p.destination == destination && p.command == 7
    ensures "COM" in p.fields && p.fields["COM"] == 7
    ensures "FUNC" in p.fields && p.fields["FUNC"] == BlindFunc(req)
    ensures "PAF" in p.fields && p.fields["PAF"] == (if req.BlindGoto? then 1 else 0)
    ensures ("P1" in p.fields) == req.BlindGoto? && ("P2" in p.fields) == req.BlindGoto?
    ensures req.BlindGoto? ==> p.fields["P1"] == 100 - req.position && p.fields["P2"] == 0
    ensures "LRNB" in p.fields && p.fields["LRNB"] == 1
    ensures "SSF" in p.fields && p.fields["SSF"] == (if req.BlindStatus? then 0 else 1)
    ensures "SMF" in p.fields && p.fields["SMF"] == 0
    ensures p.fields.Keys == {"COM", "FUNC", "LRNB", "SSF", "PAF", "SMF"} + (if req.BlindGoto? then {"P1", "P2"} else {})
  {
    var common := map["COM" := 7, "FUNC" := BlindFunc(req), "LRNB" := 1,
                      "SSF" := (if req.BlindStatus? then 0 else 1),
                      "PAF" := (if req.BlindGoto? then 1 else 0), "SMF" := 0];
    var fields := if req.BlindGoto? then common["P1" := 100 - req.position]["P2" := 0] else common;
    Radio(RorgBs4, 0x38, 0x08, sender, destination, 7, fields)
  }

  /** How a blind actuator reads a packet of A5-38-08 command 7: the command it
      carries, if any. A drive request needs the position-and-angle flag. */
  function BlindRequestOf(p: Packet): Option<BlindRequest>
  {
    if !p.Radio? || p.rorg != RorgBs4 || p.rorgFunc != 0x38 || p.rorgType != 0x08 then None
    else if "COM" !in p.fields || p.fields["COM"] != 7 || "FUNC" !in p.fields then None
    else
      var f := p.fields["FUNC"];
      if f == 0 then Some(BlindStatus)
      else if f == 1 then Some(BlindStop)
      else if f == 2 then Some(BlindOpen)
      else if f == 3 then Some(BlindClose)
      else if f == 4 && "PAF" in p.fields && p.fields["PAF"] == 1 && "P1" in p.fields then
        Some(BlindGoto(100 - p.fields["P1"]))
      else None
  }

  /** Every command the cover builds is read back as that same command. */
  lemma BlindPacketRoundTrip(sender: seq<int>, destination: seq<int>, req: BlindRequest)
    ensures BlindRequestOf(BlindPacket(sender, destination, req)) == Some(req)
  {
  }

  /** The fields of `EnOceanCover` that `value_changed` updates: the raw ST
      value, the closed flag and the raw BSP position (None until known). */
  datatype BlindState = BlindState(coverState: nat, closed: bool, position: Option<nat>)

  /** A telegram that `EnOceanCover.value_changed` processes to the end: a 4BS
      telegram whose BSP field is present whenever PVF is. */
  predicate BlindApplies(t: Telegram)
  {
    |t.data| > 0 && t.data[0] == RorgBs4 && !("PVF" in t.parsed && "BSP" !in t.parsed)
  }

  /** `EnOceanCover.value_changed` on a telegram parsed with A5-11-03. */
  function BlindReceive(s: BlindState, t: Telegram): (r: Reception<BlindState>)
    ensures r.raised == Some(IndexError) <==> |t.data| == 0
    ensures r.raised == Some(KeyError("BSP")) <==>
              |t.data| > 0 && t.data[0] == RorgBs4 && "PVF" in t.parsed && "BSP" !in t.parsed
    ensures !BlindApplies(t) ==> r.state == s && !r.notified
    ensures BlindApplies(t) ==> r.raised.None? && r.notified
    ensures |t.data| > 0 && t.data[0] != RorgBs4 ==> r.raised.None?
    ensures BlindApplies(t) && "EP" in t.parsed && t.parsed["EP"] == 3 ==> r.state.closed
    ensures BlindApplies(t) && "EP" in t.parsed && t.parsed["EP"] == 2 ==> !r.state.closed
    ensures !("EP" in t.parsed && t.parsed["EP"] in {2, 3}) ==> r.state.closed == s.closed
    ensures r.state.coverState ==
              if BlindApplies(t) && "ST" in t.parsed then t.parsed["ST"] else s.coverState
    ensures r.state.position ==
              if BlindApplies(t) && "PVF" in t.parsed then Some(t.parsed["BSP"]) else s.position
  {
    if |t.data| == 0 then Reception(Some(IndexError), s, false)
    else if t.data[0] != RorgBs4 then Reception(None, s, false)
    else if "PVF" in t.parsed && "BSP" !in t.parsed then Reception(Some(KeyError("BSP")), s, false)
    else
      var position := if "PVF" in t.parsed then Some(t.parsed["BSP"]) else s.position;
      var closed :=
        if "EP" in t.parsed && t.parsed["EP"] == 2 then false
        else if "EP" in t.parsed && t.parsed["EP"] == 3 then true
        else s.closed;
      var coverState := if "ST" in t.parsed then t.parsed["ST"] else s.coverState;
      Reception(None, BlindState(coverState, closed, position), true)
  }

  /** The position the cover reports: 100 - raw, and 100 while unknown. */
  function BlindReported(s: BlindState): int
  {
    if s.position.None? then 100 else 100 - s.position.value
  }

  /** `is_opening`: the stored ST value is STATE_OPENING. */
  predicate BlindOpening(s: BlindState)
    ensures BlindOpening(s) <==> s.coverState == 2
  {
    s.coverState == StateOpening
  }

  /** `is_closing`: the stored ST value is STATE_CLOSING. */
  predicate BlindClosing(s: BlindState)
    ensures BlindClosing(s) <==> s.coverState == 3
  {
    s.coverState == StateClosing
  }

  /** Opening and closing are read from the one ST value: they exclude each other. */
  lemma BlindNeverOpeningAndClosing(s: BlindState)
    ensures !(BlindOpening(s) && BlindClosing(s))
  {
  }

  /** Position round trip: when the actuator reports as BSP the P1 value of a
      drive command for `position`, the cover reports `position` again. */
  lemma BlindGotoThenReport(s: BlindState, sender: seq<int>, destination: seq<int>,
                            position: int, t: Telegram)
    requires 0 <= position <= 100
    requires |t.data| > 0 && t.data[0] == RorgBs4 && "PVF" in t.parsed
    requires "BSP" in t.parsed
    requires t.parsed["BSP"] == BlindPacket(sender, destination, BlindGoto(position)).fields["P1"]
    ensures BlindReported(BlindReceive(s, t).state) == position
  {
  }

  /** `EnOceanCover`. */
  class BlindCover {
    const senderId: seq<int>
    const devId: seq<int>
    const devName: string
    var coverState: nat
    var closed: bool
    var currentPosition: Option<nat>

    constructor (senderId: seq<int>, devId: seq<int>, devName: string)
      ensures this.senderId == senderId && this.devId == devId && this.devName == devName
      ensures State() == BlindState(StateNoState, false, None)
    {
      this.senderId := senderId;
      this.devId := devId;
      this.devName := devName;
      coverState := StateNoState;
      closed := false;
      currentPosition := None;
    }

    function State(): BlindState
      reads this
    {
      BlindState(coverState, closed, currentPosition)
    }

    method ValueChanged(t: Telegram) returns (raised: Option<Error>, notified: bool)
      modifies this
      ensures Reception(raised, State(), notified) == BlindReceive(old(State()), t)
    {
      raised, notified := None, false;
      if |t.data| == 0 {
        raised := Some(IndexError);
        return;
      }
      if t.data[0] == RorgBs4 {
        if "PVF" in t.parsed {
          if "BSP" !in t.parsed {
            raised := Some(KeyError("BSP"));
            return;
          }
          currentPosition := Some(t.parsed["BSP"]);
        }
        if "EP" in t.parsed {
          var ep := t.parsed["EP"];
          if ep == 2 {
            closed := false;
          }
          if ep == 3 {
            closed := true;
          }
        }
        if "ST" in t.parsed {
          coverState := t.parsed["ST"];
        }
        notified := true;
      }
    }

    /** `current_cover_position`: while the position is unknown it reports 100
        and sends a status request. */
    method CurrentCoverPosition() returns (position: int, sent: seq<Packet>)
      ensures position == BlindReported(State())
      ensures currentPosition.Some? ==> position == 100 - currentPosition.value && sent == []
      ensures currentPosition.None? ==> position == 100 && |sent| == 1
      ensures currentPosition.None? ==> BlindRequestOf(sent[0]) == Some(BlindStatus)
      ensures sent == if currentPosition.None? then [BlindPacket(senderId, devId, BlindStatus)] else []
    {
      if currentPosition.None? {
        var request := RequestCurrentState();
        BlindPacketRoundTrip(senderId, devId, BlindStatus);
        return 100, [request];
      }
      return 100 - currentPosition.value, [];
    }

    predicate IsOpening()
      reads this
      ensures IsOpening() <==> coverState == StateOpening
      ensures IsOpening() ==> !IsClosing()
    {
      BlindOpening(State())
    }

    predicate IsClosing()
      reads this
      ensures IsClosing() <==> coverState == StateClosing
    {
      BlindClosing(State())
    }

    /** `is_closed`: the flag that EP last set (False before any EP). */
    predicate IsClosed()
      reads this
      ensures IsClosed() <==> State().closed
    {
      closed
    }

    method OpenCover() returns (sent: Packet)
      ensures sent == BlindPacket(senderId, devId, BlindOpen)
      ensures BlindRequestOf(sent) == Some(BlindOpen)
    {
      sent := BlindPacket(senderId, devId, BlindOpen);
      BlindPacketRoundTrip(senderId, devId, BlindOpen);
    }

    method CloseCover() returns (sent: Packet)
      ensures sent == BlindPacket(senderId, devId, BlindClose)
      ensures BlindRequestOf(sent) == Some(BlindClose)
    {
      sent := BlindPacket(senderId, devId, BlindClose);
      BlindPacketRoundTrip(senderId, devId, BlindClose);
    }

    /** Out-of-range positions send nothing; the blind cover keeps no target. */
    method SetCoverPosition(position: int) returns (sent: Option<Packet>)
      ensures sent.Some? <==> 0 <= position <= 100
      ensures sent.Some? ==> sent.value == BlindPacket(senderId, devId, BlindGoto(position))
      ensures sent.Some? ==> BlindRequestOf(sent.value) == Some(BlindGoto(position))
    {
      if position < 0 || position > 100 {
        return None;
      }
      sent := Some(BlindPacket(senderId, devId, BlindGoto(position)));
      BlindPacketRoundTrip(senderId, devId, BlindGoto(position));
    }

    method StopCover() returns (sent: Packet)
      ensures sent == BlindPacket(senderId, devId, BlindStop)
      ensures BlindRequestOf(sent) == Some(BlindStop)
    {
      sent := BlindPacket(senderId, devId, BlindStop);
      BlindPacketRoundTrip(senderId, devId, BlindStop);
    }

    method RequestCurrentState() returns (sent: Packet)
      ensures sent == BlindPacket(senderId, devId, BlindStatus)
      ensures BlindRequestOf(sent) == Some(BlindStatus)
    {
      sent := BlindPacket(senderId, devId, BlindStatus);
      BlindPacketRoundTrip(senderId, devId, BlindStatus);
    }
  }

  // ---------------------------------------------------------------------
  // VLD cover (D2-05-00)
  // ---------------------------------------------------------------------

  /** The commands `EnOceanVldCover` sends. */
  datatype VldRequest = VldGoto(position: int) | VldStop | VldQuery

  /** The packet `EnOceanVldCover` builds: goto carries POS = 100 - position,
      no angle change (127), direct repositioning and no lock; every command
      addresses channel 0. */
  function VldPacket(sender: seq<int>, destination: seq<int>, req: VldRequest): (p: Packet)
    ensures p.Radio? && p.rorg == RorgVld && p.rorgFunc == 0x05 && p.rorgType == 0x00
    ensures p.sender == sender && p.destination == destination
    ensures "CHN" in p.fields && p.fields["CHN"] == 0
    ensures p.command == (match req case VldGoto(_) => 1 case VldStop => 2 case VldQuery => 3)
    ensures req.VldGoto? ==>
              p.fields == map["POS" := 100 - req.position, "ANG" := 127, "REPO" := 0, "LOCK" := 0, "CHN" := 0]
    ensures !req.VldGoto? ==> p.fields == map["CHN" := 0]
  {
    match req
    case VldGoto(position) =>
      Radio(RorgVld, 0x05, 0x00, sender, destination, 1,
            map["POS" := 100 - position, "ANG" := 127, "REPO" := 0, "LOCK" := 0, "CHN" := 0])
    case VldStop => Radio(RorgVld, 0x05, 0x00, sender, destination, 2, map["CHN" := 0])
    case VldQuery => Radio(RorgVld, 0x05, 0x00, sender, destination, 3, map["CHN" := 0])
  }

  /** How a D2-05-00 actuator reads a command packet. */
  function VldRequestOf(p: Packet): Option<VldRequest>
  {
    if !p.Radio? || p.rorg != RorgVld || p.rorgFunc != 0x05 || p.rorgType != 0x00 then None
    else if p.command == 1 && "POS" in p.fields then Some(VldGoto(100 - p.fields["POS"]))
    else if p.command == 2 then Some(VldStop)
    else if p.command == 3 then Some(VldQuery)
    else None
  }

  lemma VldPacketRoundTrip(sender: seq<int>, destination: seq<int>, req: VldRequest)
    ensures VldRequestOf(VldPacket(sender, destination, req)) == Some(req)
  {
  }

  /** The fields of `EnOceanVldCover`: the confirmed raw position and the
      optimistic target (public convention), each None when unknown. */
  datatype VldState = VldState(position: Option<nat>, target: Option<int>)

  /** `EnOceanVldCover.value_changed` on a telegram parsed with D2-05-00. */
  function VldReceive(s: VldState, t: Telegram): (r: Reception<VldState>)
    ensures r.raised.Some? <==> |t.data| == 0
    ensures r.raised.Some? ==> r.raised.value == IndexError
    ensures r.state.target == s.target
    ensures r.notified <==> |t.data| > 0 && t.data[0] == RorgVld
    ensures r.state.position ==
              if |t.data| > 0 && t.data[0] == RorgVld && "POS" in t.parsed then Some(t.parsed["POS"])
              else s.position
  {
    if |t.data| == 0 then Reception(Some(IndexError), s, false)
    else if t.data[0] != RorgVld then Reception(None, s, false)
    else if "POS" in t.parsed then Reception(None, s.(position := Some(t.parsed["POS"])), true)
    else Reception(None, s, true)
  }

  /** The public position: 100 - raw, None while unknown. */
  function VldPublicPosition(s: VldState): (r: Option<int>)
    ensures r.None? <==> s.position.None?
    ensures r.Some? ==> r.value + s.position.value == 100
    ensures s.position.Some? && s.position.value <= 100 ==> 0 <= r.value <= 100
  {
    if s.position.None? then None else Some(100 - s.position.value)
  }

  /** Closed iff the public position is 0: raw 100 is closed, any other raw
      value is not, and the answer is unknown with the position. */
  function VldClosed(s: VldState): (r: Option<bool>)
    ensures r.None? <==> s.position.None?
    ensures r == Some(true) <==> s.position == Some(100)
    ensures s.position == Some(0) ==> r == Some(false)
  {
    var p := VldPublicPosition(s);
    if p.None? then None else Some(p.value == 0)
  }

  /** Opening iff the public position is below the target; False without a
      target, None without a position. */
  function VldOpening(s: VldState): (r: Option<bool>)
    ensures r.None? <==> s.position.None?
    ensures s.position.Some? && s.target.None? ==> r == Some(false)
    ensures r == Some(true) <==> s.position.Some? && s.target.Some? && 100 - s.position.value < s.target.value
  {
    var p := VldPublicPosition(s);
    if p.None? then None
    else if s.target.None? then Some(false)
    else Some(p.value < s.target.value)
  }

  /** Closing iff the public position is above the target. */
  function VldClosing(s: VldState): (r: Option<bool>)
    ensures r.None? <==> s.position.None?
    ensures s.position.Some? && s.target.None? ==> r == Some(false)
    ensures r == Some(true) <==> s.position.Some? && s.target.Some? && 100 - s.position.value > s.target.value
  {
    var p := VldPublicPosition(s);
    if p.None? then None
    else if s.target.None? then Some(false)
    else Some(p.value > s.target.value)
  }

  /** The state after `set_cover_position`: an in-range position becomes the
      target, anything else changes nothing. */
  function VldAfterGoto(s: VldState, position: int): VldState
  {
    if 0 <= position <= 100 then s.(target := Some(position)) else s
  }

  /** The state after `stop_cover`. */
  function VldAfterStop(s: VldState): VldState
  {
    s.(target := None)
  }

  lemma VldNeverOpeningAndClosing(s: VldState)
    ensures !(VldOpening(s) == Some(true) && VldClosing(s) == Some(true))
  {
  }

  /** After stop the cover reports no motion, whatever it reported before. */
  lemma VldStopEndsMotion(s: VldState)
    requires s.position.Some?
    ensures VldOpening(VldAfterStop(s)) == Some(false)
    ensures VldClosing(VldAfterStop(s)) == Some(false)
  {
  }

  /** Receiving a stream of telegrams, in order. */
  function VldReceiveAll(s: VldState, ts: seq<Telegram>): VldState
    decreases |ts|
  {
    if ts == [] then s else VldReceiveAll(VldReceive(s, ts[0]).state, ts[1..])
  }

  /** No telegram clears or moves the optimistic target: only a new goto or a
      stop does. */
  lemma {:induction false} VldTargetSurvivesTelegrams(s: VldState, ts: seq<Telegram>)
    ensures VldReceiveAll(s, ts).target == s.target
    decreases |ts|
  {
    if ts != [] {
      VldTargetSurvivesTelegrams(VldReceive(s, ts[0]).state, ts[1..]);
    }
  }

  /** A stream of telegrams none of which carries a POS field leaves the
      position, and so the reported direction, as it was. */
  lemma {:induction false} VldDirectionStuckWithoutPositions(s: VldState, ts: seq<Telegram>)
    requires forall i :: 0 <= i < |ts| ==> "POS" !in ts[i].parsed
    ensures VldReceiveAll(s, ts) == s
    decreases |ts|
  {
    if ts != [] {
      VldDirectionStuckWithoutPositions(VldReceive(s, ts[0]).state, ts[1..]);
    }
  }

  /** After goto(target), each position telegram decides the direction afresh:
      opening iff the public position is still below the target, closing iff
      above; the telegram that reports the target itself ends both. */
  lemma VldDirectionAfterReport(s: VldState, target: int, t: Telegram)
    requires 0 <= target <= 100
    requires |t.data| > 0 && t.data[0] == RorgVld && "POS" in t.parsed
    ensures VldOpening(VldReceive(VldAfterGoto(s, target), t).state) == Some(100 - t.parsed["POS"] < target)
    ensures VldClosing(VldReceive(VldAfterGoto(s, target), t).state) == Some(100 - t.parsed["POS"] > target)
    ensures t.parsed["POS"] == 100 - target ==>
              VldOpening(VldReceive(VldAfterGoto(s, target), t).state) == Some(false) &&
              VldClosing(VldReceive(VldAfterGoto(s, target), t).state) == Some(false)
  {
  }

  /** `EnOceanVldCover`. */
  class VldCover {
    const senderId: seq<int>
    const devId: seq<int>
    const devName: string
    const channel: Option<int>
    var currentPosition: Option<nat>
    var targetPosition: Option<int>

    constructor (senderId: seq<int>, devId: seq<int>, devName: string, channel: Option<int>)
      ensures this.senderId == senderId && this.devId == devId && this.devName == devName
      ensures this.channel == channel
      ensures State() == VldState(None, None)
    {
      this.senderId := senderId;
      this.devId := devId;
      this.devName := devName;
      this.channel := channel;
      currentPosition := None;
      targetPosition := None;
    }

    function State(): VldState
      reads this
    {
      VldState(currentPosition, targetPosition)
    }

    /** The status query every getter sends while the position is unknown. */
    function PendingQueries(): seq<Packet>
      reads this
    {
      if currentPosition.None? then [VldPacket(senderId, devId, VldQuery)] else []
    }

    method ValueChanged(t: Telegram) returns (raised: Option<Error>, notified: bool)
      modifies this
      ensures Reception(raised, State(), notified) == VldReceive(old(State()), t)
    {
      raised, notified := None, false;
      if |t.data| == 0 {
        raised := Some(IndexError);
        return;
      }
      if t.data[0] == RorgVld {
        if "POS" in t.parsed {
          currentPosition := Some(t.parsed["POS"]);
        }
        notified := true;
      }
    }

    method CurrentCoverPosition() returns (position: Option<int>, sent: seq<Packet>)
      ensures position == VldPublicPosition(State())
      ensures position.Some? ==> currentPosition.Some? && position.value == 100 - currentPosition.value
      ensures sent == PendingQueries()
    {
      if currentPosition.None? {
        var request := RequestCurrentState();
        return None, [request];
      }
      return Some(100 - currentPosition.value), [];
    }

    method IsClosed() returns (closed: Option<bool>, sent: seq<Packet>)
      ensures closed == VldClosed(State())
      ensures sent == PendingQueries()
    {
      var position;
      position, sent := CurrentCoverPosition();
      if position.None? {
        return None, sent;
      }
      closed := Some(position.value == 0);
    }

    method IsOpening() returns (opening: Option<bool>, sent: seq<Packet>)
      ensures opening == VldOpening(State())
      ensures sent == PendingQueries()
    {
      var position;
      position, sent := CurrentCoverPosition();
      if position.None? {
        return None, sent;
      }
      if targetPosition.None? {
        return Some(false), sent;
      }
      var again, more := CurrentCoverPosition();
      opening := Some(again.value < targetPosition.value);
      sent := sent + more;
    }

    method IsClosing() returns (closing: Option<bool>, sent: seq<Packet>)
      ensures closing == VldClosing(State())
      ensures sent == PendingQueries()
    {
      var position;
      position, sent := CurrentCoverPosition();
      if position.None? {
        return None, sent;
      }
      if targetPosition.None? {
        return Some(false), sent;
      }
      var again, more := CurrentCoverPosition();
      closing := Some(again.value > targetPosition.value);
      sent := sent + more;
    }

    /** Out of range: nothing sent, nothing changed. Otherwise the goto
        command is sent and the position becomes the optimistic target. */
    method SetCoverPosition(position: int) returns (sent: Option<Packet>)
      modifies this
      ensures sent.Some? <==> 0 <= position <= 100
      ensures sent.Some? ==> sent.value == VldPacket(senderId, devId, VldGoto(position))
      ensures State() == VldAfterGoto(old(State()), position)
    {
      if position < 0 || position > 100 {
        return None;
      }
      sent := Some(VldPacket(senderId, devId, VldGoto(position)));
      targetPosition := Some(position);
    }

    method StopCover() returns (sent: Packet)
      modifies this
      ensures sent == VldPacket(senderId, devId, VldStop)
      ensures State() == VldAfterStop(old(State()))
    {
      sent := VldPacket(senderId, devId, VldStop);
      targetPosition := None;
    }

    method RequestCurrentState() returns (sent: Packet)
      ensures sent == VldPacket(senderId, devId, VldQuery)
      ensures VldRequestOf(sent) == Some(VldQuery)
    {
      sent := VldPacket(senderId, devId, VldQuery);
      VldPacketRoundTrip(senderId, devId, VldQuery);
    }

    /** Open is goto(100). */
    method OpenCover() returns (sent: Option<Packet>)
      modifies this
      ensures sent == Some(VldPacket(senderId, devId, VldGoto(100)))
      ensures State() == old(State()).(target := Some(100))
    {
      sent := SetCoverPosition(100);
    }

    /** Close is goto(0). */
    method CloseCover() returns (sent: Option<Packet>)
      modifies this
      ensures sent == Some(VldPacket(senderId, devId, VldGoto(0)))
      ensures State() == old(State()).(target := Some(0))
    {
      sent := SetCoverPosition(0);
    }
  }
}
