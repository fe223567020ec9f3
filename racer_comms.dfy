// The radio payload the hat sends to the racer: three meaningful bytes in a
// fixed 32-byte frame, on a channel chosen by the DIP switches.
module RacerComms {
  import opened CInt
  import opened RacerCore

  const PAYLOAD_LENGTH := 32
  const CHANNEL_OFFSET := 100

  /** `payload_h2r_t`. */
  datatype Payload = Payload(motorLeft: U8, motorRight: U8, shouldDeployString: bool)

  /** `decode_payload_h2r`: byte 2 is read as a C `bool` (non-zero is true). */
  function DecodePayload(buffer: seq<U8>): (p: Payload)
    requires |buffer| >= 3
    ensures p.motorLeft == buffer[0] && p.motorRight == buffer[1]
    ensures p.shouldDeployString <==> buffer[2] != 0
  {
    Payload(buffer[0], buffer[1], buffer[2] != 0)
  }

  /** `encode_payload_h2r`: writes bytes 0..2 of the caller's buffer. */
  method EncodePayload(payload: Payload, buffer: array<U8>)
    requires buffer.Length >= 3
    modifies buffer
    ensures DecodePayload(buffer[..]) == payload
    ensures buffer[2] <= 1
    ensures buffer[3..] == old(buffer[3..])
  {
    buffer[0] := payload.motorLeft;
    buffer[1] := payload.motorRight;
    buffer[2] := if payload.shouldDeployString then 1 else 0;
  }

  /** The frame `comms_send_h2r_payload` hands to the radio: a zeroed
      32-byte buffer with the payload encoded into it. */
  method SendFrame(payload: Payload) returns (frame: seq<U8>)
    ensures |frame| == PAYLOAD_LENGTH
    ensures DecodePayload(frame) == payload
    ensures forall i :: 3 <= i < |frame| ==> frame[i] == 0
  {
    var buffer := new U8[PAYLOAD_LENGTH](_ => 0);
    EncodePayload(payload, buffer);
    frame := buffer[..];
    assert forall i :: 3 <= i < |frame| ==> frame[i] == buffer[3..][i - 3];
  }

  /** The channel number `comms_initialise` opens, from the DIP value. */
  function Channel(dip: int): (c: int)
    requires dip >= 0
    ensures CHANNEL_OFFSET <= c < CHANNEL_OFFSET + 8
  {
    dip % 8 + CHANNEL_OFFSET
  }

  /** DIP 0 does not take part in the choice of channel, and the other three
      switches select eight different channels. */
  lemma ChannelFromSwitches(d1: bool, d2: bool, d3: bool, e1: bool, e2: bool, e3: bool)
    ensures Channel(DipValue(true, d1, d2, d3)) == Channel(DipValue(false, d1, d2, d3))
    ensures Channel(DipValue(false, d1, d2, d3)) == Channel(DipValue(false, e1, e2, e3))
            ==> d1 == e1 && d2 == e2 && d3 == e3
  {
    if Channel(DipValue(false, d1, d2, d3)) == Channel(DipValue(false, e1, e2, e3)) {
      DipValueInjective(false, d1, d2, d3, false, e1, e2, e3);
    }
  }
}
