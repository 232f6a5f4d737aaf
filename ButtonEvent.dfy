/** Rocker buttons (enocean_event.py): wall switches of profiles F6-02-01 and
    F6-02-02. They keep no state of their own beyond the last recognised
    button; each telegram fires a "button_pressed" event on the host's bus. */
module ButtonEvent {
  import opened Telegrams

  const EventButtonPressed := "button_pressed"

  /** Status byte values (data[6]) of a press and of a release. */
  const StatusPressed := 0x30
  const StatusReleased := 0x20

  /** `pushed`: 1 for a press, 0 for a release, None for any other status. */
  function Pushed(status: int): (r: Option<int>)
    ensures r == Some(1) <==> status == StatusPressed
    ensures r == Some(0) <==> status == StatusReleased
    ensures r.None? <==> status != StatusPressed && status != StatusReleased
  {
    if status == StatusPressed then Some(1)
    else if status == StatusReleased then Some(0)
    else None
  }

  /** Which rocker (0 = B, 1 = A, 10 = both) and which side of it (`onoff`). */
  datatype Button = Button(which: int, onoff: int)

  /** The integration's table from the action byte (data[1]) to a button. */
  function ButtonOf(action: int): (r: Option<Button>)
    ensures r.Some? <==> action in {0x70, 0x50, 0x30, 0x10, 0x37, 0x15}
    ensures r.Some? ==> r.value.which in {0, 1, 10} && r.value.onoff in {0, 1}
    ensures r.Some? && r.value.which == 10 ==> action % 2 == 1
  {
    if action == 0x70 then Some(Button(0, 0))
    else if action == 0x50 then Some(Button(0, 1))
    else if action == 0x30 then Some(Button(1, 0))
    else if action == 0x10 then Some(Button(1, 1))
    else if action == 0x37 then Some(Button(10, 0))
    else if action == 0x15 then Some(Button(10, 1))
    else None
  }

  /** The action byte read through the F6-02-01 bit fields: R1 (bits 7..5,
      0 = A-I, 1 = A-O, 2 = B-I, 3 = B-O), energy bow EB (bit 4), R2 (bits
      3..1) and second action SA (bit 0). The integration recognises a single
      pressed button, and rocker A as the first action with rocker B as the
      second, on the same side. */
  function RockerOf(action: int): Option<Button>
    requires 0 <= action < 256
  {
    var r1 := action / 32;
    var eb := (action / 16) % 2;
    var r2 := (action % 16) / 2;
    var sa := action % 2;
    if eb != 1 || r1 > 3 then None
    else if sa == 0 && r2 == 0 then Some(Button(if r1 >= 2 then 0 else 1, if r1 % 2 == 0 then 1 else 0))
    else if sa == 1 && r1 <= 1 && r2 == r1 + 2 then Some(Button(10, if r1 == 0 then 1 else 0))
    else None
  }

  /** The table is exactly that reading of the profile, for every action byte. */
  lemma ButtonTableFollowsProfile(action: int)
    requires 0 <= action < 256
    ensures ButtonOf(action) == RockerOf(action)
  {
    var r1 := action / 32;
    var rest := action % 32;
    assert action == 32 * r1 + rest;
    assert (action / 16) % 2 == rest / 16;
    assert action % 16 == rest % 16;
    assert action % 2 == rest % 2;
  }

  /** The record fired on the bus. */
  datatype ButtonEventRecord = ButtonEventRecord(
    eventType: string, id: seq<int>, idAsHex: string, pushed: Option<int>,
    which: int, onoff: int, name: string)

  /** The last recognised button; (-1, -1) before any. */
  datatype EventState = EventState(which: int, onoff: int)

  /** What one `value_changed` call did. */
  datatype EventOutcome = EventOutcome(raised: Option<Error>, state: EventState, fired: Option<ButtonEventRecord>)

  /** `EnOceanEvent.value_changed` for a device with id `id`, its hex form
      `idAsHex` and name `name`. Data shorter than seven bytes raises
      IndexError before anything happens. */
  function ButtonPress(s: EventState, id: seq<int>, idAsHex: string, name: string, data: seq<int>): (r: EventOutcome)
    ensures r.raised.Some? <==> |data| < 7
    ensures r.raised.Some? ==> r.raised.value == IndexError && r.state == s && r.fired.None?
    ensures |data| >= 7 ==> r.fired.Some?
    ensures |data| >= 7 && ButtonOf(data[1]).Some? ==>
              r.state == EventState(ButtonOf(data[1]).value.which, ButtonOf(data[1]).value.onoff)
    ensures |data| >= 7 && ButtonOf(data[1]).None? ==> r.state == s
    ensures r.fired.Some? ==>
              r.fired.value == ButtonEventRecord(EventButtonPressed, id, idAsHex, Pushed(data[6]),
                                                 r.state.which, r.state.onoff, name)
  {
    if |data| < 7 then EventOutcome(Some(IndexError), s, None)
    else
      var pushed := Pushed(data[6]);
      var button := ButtonOf(data[1]);
      var s' := if button.Some? then EventState(button.value.which, button.value.onoff) else s;
      EventOutcome(None, s', Some(ButtonEventRecord(EventButtonPressed, id, idAsHex, pushed, s'.which, s'.onoff, name)))
  }

  /** The two sample packets of the handler's documentation: the second button
      pressed, then released. */
  lemma DocumentedPressAndRelease(s: EventState, id: seq<int>, idAsHex: string, name: string)
    ensures var press := ButtonPress(s, id, idAsHex, name, [0xf6, 0x10, 0x00, 0x2d, 0xcf, 0x45, 0x30]);
            && press.fired.Some?
            && press.fired.value.which == 1 && press.fired.value.onoff == 1 && press.fired.value.pushed == Some(1)
            && var release := ButtonPress(press.state, id, idAsHex, name, [0xf6, 0x00, 0x00, 0x2d, 0xcf, 0x45, 0x20]);
               && release.fired.Some? && release.fired.value.pushed == Some(0)
               && release.state == press.state
  {
  }

  /** The unique id: "event-" followed by the hex form of the device id. */
  function UniqueId(hexId: string): (u: string)
    ensures |u| == 6 + |hexId| && u[..6] == "event-" && u[6..] == hexId
  {
    "event-" + hexId
  }

  /** `EnOceanEvent`. `hexId` is `to_hex_string(dev_id)`. */
  class EnOceanEvent {
    const devId: seq<int>
    const devName: string
    const hexId: string
    var which: int
    var onoff: int

    constructor (devId: seq<int>, devName: string, hexId: string)
      ensures this.devId == devId && this.devName == devName && this.hexId == hexId
      ensures State() == EventState(-1, -1)
    {
      this.devId := devId;
      this.devName := devName;
      this.hexId := hexId;
      which := -1;
      onoff := -1;
    }

    function State(): EventState
      reads this
    {
      EventState(which, onoff)
    }

    method ValueChanged(t: Telegram) returns (raised: Option<Error>, fired: Option<ButtonEventRecord>)
      modifies this
      ensures EventOutcome(raised, State(), fired) == ButtonPress(old(State()), devId, hexId, devName, t.data)
    {
      if |t.data| < 7 {
        return Some(IndexError), None;
      }
      var pushed: Option<int> := None;
      if t.data[6] == StatusPressed {
        pushed := Some(1);
      } else if t.data[6] == StatusReleased {
        pushed := Some(0);
      }
      var action := t.data[1];
      if action == 0x70 {
        which, onoff := 0, 0;
      } else if action == 0x50 {
        which, onoff := 0, 1;
      } else if action == 0x30 {
        which, onoff := 1, 0;
      } else if action == 0x10 {
        which, onoff := 1, 1;
      } else if action == 0x37 {
        which, onoff := 10, 0;
      } else if action == 0x15 {
        which, onoff := 10, 1;
      }
      raised := None;
      fired := Some(ButtonEventRecord(EventButtonPressed, devId, hexId, pushed, which, onoff, devName));
    }

    function UniqueIdOf(): (u: string)
      reads this
      ensures |u| == 6 + |hexId| && u[..6] == "event-" && u[6..] == hexId
    {
      UniqueId(hexId)
    }
  }
}
