/** The Z6 wire protocol: the byte frames the controller builds for each
    semantic command, in both protocol revisions, and a reference decoder
    that says what each frame means. */
module Frames {
  import opened Bytes
  import opened Wrappers

  type Frame = seq<byte>

  /** The four bytes `BitConverter.GetBytes(float)` yields for the brightness
      fraction; their float meaning is not modelled. */
  type FloatBytes = s: seq<byte> | |s| == 4 witness [0, 0, 0, 0]

  /** The semantic inputs a command frame is built from. */
  datatype Command =
    | Brightness(payload: FloatBytes)
    | RecallPreset(preset: ushort)
    | ShowOn
    | ShowOff

  /** The device id a command frame carries, read big-endian from offsets 6 and 7. */
  function IdAt(f: Frame): (id: ushort)
    requires |f| >= 8
  {
    f[6] as int * 0x100 + f[7] as int
  }

  /** The 16 bytes `SetBrightness` puts before the brightness payload. */
  function BrightnessHeader(id: ushort): (h: Frame)
    ensures |h| == 16 && IdAt(h) == id
    ensures h == [0x21, 0x00, 0x14, 0x00, 0x00, 0x00, id / 0x100, id % 0x100,
                  0xFF, 0x00, 0x00, 0x00, 0x00, 0x00, 0x00, 0x00]
  {
    [0x21, 0x00, 0x14, 0x00, 0x00, 0x00, HighByte(id), LowByte(id), 0xFF, 0x00, 0x00, 0x00, 0x00,
     0x00, 0x00, 0x00]
  }

  /** `SetBrightness`: the header followed by exactly the four payload bytes. */
  function BrightnessFrame(id: ushort, payload: FloatBytes): (f: Frame)
    ensures |f| == 20 && f[0] == 0x21 && IdAt(f) == id
    ensures f[..16] == BrightnessHeader(id) && f[16..] == payload
  {
    BrightnessHeader(id) + payload
  }

  /** `RecallPreset`: 17 bytes, the last one the preset cut down to 8 bits. */
  function RecallPresetFrame(id: ushort, preset: ushort): (f: Frame)
    ensures |f| == 17 && f[..3] == [0x74, 0x00, 0x11]
    ensures f[6] == id / 0x100 && f[7] == id % 0x100 && IdAt(f) == id
    ensures f[16] == preset % 0x100
  {
    [0x74, 0x00, 0x11, 0x00, 0x00, 0x00, HighByte(id), LowByte(id), 0xFF, 0x00, 0x00, 0x00, 0x00,
     0x00, 0x00, 0x00, ToByte(preset)]
  }

  /** `SetShowOn`: opcode 0x11 with trailing flag 0x01. */
  function ShowOnFrame(id: ushort): (f: Frame)
    ensures |f| == 17 && f[0] == 0x11 && IdAt(f) == id && f[16] == 0x01
  {
    [0x11, 0x00, 0x11, 0x00, 0x00, 0x00, HighByte(id), LowByte(id), 0xFF, 0x00, 0x00, 0x00, 0x00,
     0x00, 0x00, 0x00, 0x01]
  }

  /** `SetShowOff`: opcode 0x11 with trailing flag 0x00. */
  function ShowOffFrame(id: ushort): (f: Frame)
    ensures |f| == 17 && f[0] == 0x11 && IdAt(f) == id && f[16] == 0x00
  {
    [0x11, 0x00, 0x11, 0x00, 0x00, 0x00, HighByte(id), LowByte(id), 0xFF, 0x00, 0x00, 0x00, 0x00,
     0x00, 0x00, 0x00, 0x00]
  }

  /** The frame the controller sends for a command. */
  function Encode(id: ushort, c: Command): (f: Frame)
    ensures |f| >= 17 && IdAt(f) == id
    ensures f[6] == id / 0x100 && f[7] == id % 0x100
  {
    match c
    case Brightness(payload) => BrightnessFrame(id, payload)
    case RecallPreset(preset) => RecallPresetFrame(id, preset)
    case ShowOn => ShowOnFrame(id)
    case ShowOff => ShowOffFrame(id)
  }

  /** The heartbeat of the current revision: eight fixed bytes. */
  function HeartbeatFrame(): (f: Frame)
    ensures |f| == 8 && f[..2] == [0x99, 0x99] && f[3] == |f|
    ensures f[2..] == [0x00, 0x08, 0x00, 0x00, 0x00, 0x00]
  {
    [0x99, 0x99, 0x00, 0x08, 0x00, 0x00, 0x00, 0x00]
  }

  /** The heartbeat of the older revision: four fixed bytes. */
  function LegacyHeartbeatFrame(): (f: Frame)
    ensures |f| == 4 && f[..2] == [0x99, 0x99] && f[2] == |f|
    ensures f[2..] == [0x04, 0x00]
  {
    [0x99, 0x99, 0x04, 0x00]
  }

  // ---------------------------------------------------------------------
  // Reference decoder: the meaning of a frame, written independently of
  // the builders above. In every command frame byte 2 equals the frame's
  // length (0x14 = 20, 0x11 = 17), and bytes 8..15 are FF 00 .. 00.

  predicate CommandHeader(f: Frame, opcode: byte, len: nat)
  {
    && |f| == len && len >= 16
    && f[0] == opcode && f[1] == 0x00 && f[2] == len
    && f[3] == 0x00 && f[4] == 0x00 && f[5] == 0x00
    && f[8] == 0xFF
    && forall i :: 9 <= i < 16 ==> f[i] == 0x00
  }

  /** Decodes a command frame into the device id and the command, or None. */
  function ParseCommand(f: Frame): Option<(ushort, Command)>
  {
    if CommandHeader(f, 0x21, 20) then Some((IdAt(f), Brightness(f[16..])))
    else if CommandHeader(f, 0x74, 17) then Some((IdAt(f), RecallPreset(f[16])))
    else if CommandHeader(f, 0x11, 17) && f[16] == 0x01 then Some((IdAt(f), ShowOn))
    else if CommandHeader(f, 0x11, 17) && f[16] == 0x00 then Some((IdAt(f), ShowOff))
    else None
  }

  /** What a command becomes on the wire: a preset keeps only its low 8 bits. */
  function OnWire(c: Command): Command
  {
    match c
    case RecallPreset(preset) => RecallPreset(preset % 0x100)
    case _ => c
  }

  /** Every command frame decodes to the id it was built with and to the
      command, with the preset truncated to 8 bits. */
  lemma ParseEncodeRoundTrip(id: ushort, c: Command)
    ensures ParseCommand(Encode(id, c)) == Some((id, OnWire(c)))
  {
  }

  /** Two commands give the same frame only when they agree on the id and on
      what reaches the wire: the encoding loses nothing but the preset's high byte. */
  lemma EncodeInjective(id1: ushort, c1: Command, id2: ushort, c2: Command)
    requires Encode(id1, c1) == Encode(id2, c2)
    ensures id1 == id2 && OnWire(c1) == OnWire(c2)
  {
    ParseEncodeRoundTrip(id1, c1);
    ParseEncodeRoundTrip(id2, c2);
  }

  /** Presets 256 apart are indistinguishable on the wire. */
  lemma PresetTruncation(id: ushort, preset: ushort)
    requires preset >= 0x100
    ensures RecallPresetFrame(id, preset) == RecallPresetFrame(id, preset - 0x100)
  {
  }

  /** The on and off frames agree on everything, the id included, but the final flag. */
  lemma ShowFramesDifferOnlyInFlag(id: ushort)
    ensures |ShowOnFrame(id)| == |ShowOffFrame(id)| == 17
    ensures ShowOnFrame(id)[..16] == ShowOffFrame(id)[..16]
    ensures ShowOnFrame(id)[16] == 0x01 && ShowOffFrame(id)[16] == 0x00
    ensures ShowOnFrame(id) != ShowOffFrame(id)
  {
  }

  /** Apart from the id bytes at offsets 6 and 7, a command frame does not depend on the id. */
  lemma OnlyIdBytesDependOnId(id1: ushort, id2: ushort, c: Command)
    ensures |Encode(id1, c)| == |Encode(id2, c)|
    ensures forall i :: 0 <= i < |Encode(id1, c)| && i != 6 && i != 7 ==>
              Encode(id1, c)[i] == Encode(id2, c)[i]
  {
  }

  /** Neither heartbeat can be mistaken for a command frame. */
  lemma HeartbeatsAreNotCommands()
    ensures ParseCommand(HeartbeatFrame()) == None
    ensures ParseCommand(LegacyHeartbeatFrame()) == None
  {
  }

  /** Device id 0x1234 appears as 12 34 at offsets 6 and 7; preset 300 goes out as 0x2C. */
  lemma WireExamples(c: Command)
    ensures Encode(0x1234, c)[6..8] == [0x12, 0x34]
    ensures RecallPresetFrame(0x00AB, 300)[16] == 0x2C
    ensures BrightnessHeader(0x00AB) ==
      [0x21, 0x00, 0x14, 0x00, 0x00, 0x00, 0x00, 0xAB, 0xFF, 0x00, 0x00, 0x00, 0x00, 0x00, 0x00, 0x00]
  {
  }
}
