/** Values shared by every device model: the inbound radio telegram as a
    device sees it after applying its profile, the outbound packets a device
    hands to the transport, and the Python exceptions a handler can raise. */
module Telegrams {

  datatype Option<T> = None | Some(value: T)

  /** The exceptions the handlers of this integration can raise on odd input. */
  datatype Error = IndexError | KeyError(key: string)

  datatype Result<T> = Ok(value: T) | Err(error: Error)

  /** Radio-telegram organisation bytes (the first data byte of a radio packet). */
  const RorgRps := 0xF6
  const RorgBs4 := 0xA5
  const RorgVld := 0xD2

  /** An inbound radio packet. `data` is the raw data byte list (data[0] is the
      RORG byte). `parsed` holds the raw values of the fields that
      `parse_eep` yields for the one profile the receiving device applies to
      packets with that RORG byte; a field the profile did not yield is absent. */
  datatype Telegram = Telegram(data: seq<int>, parsed: map<string, nat>)

  /** An outbound packet, as a value instead of a call to the transport.
      Radio: the arguments of `RadioPacket.create` (profile, addresses,
      `command` and the named field values).
      Frame: the arguments of `send_command` (data, optional data, packet type). */
  datatype Packet =
    | Radio(rorg: int, rorgFunc: int, rorgType: int, sender: seq<int>,
            destination: seq<int>, command: int, fields: map<string, int>)
    | Frame(data: seq<int>, optional: seq<int>, packetType: int)

  /** What one call of a `value_changed` handler did: the exception it raised
      (None when it returned normally), the device state afterwards, and
      whether it asked the host to refresh the device's state. */
  datatype Reception<S> = Reception(raised: Option<Error>, state: S, notified: bool)

}
