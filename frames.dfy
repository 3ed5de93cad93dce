/**
 * The fixed-length command frames of the door-controller board and the two
 * command prefixes the program sends (main.go:21-22, 157-170).
 */
module Frames {

  import opened Wrappers
  import Errors

  /** A Go `byte` (uint8). */
  newtype byte = b: int | 0 <= b < 256

  /** Every frame written to the board, and the read buffer, is this long. */
  const FrameLen: nat := 30

  /** The `MsgInit` prefix: resets the board. */
  const InitCommand: seq<byte> := [0x7F, 0x7F, 0x0A, 0x01]

  /** The `MsgOpen` template; byte 1 is the base the door id is added to. */
  const OpenTemplate: seq<byte> := [0x7F, 0x40, 0x06, 0x0F]

  function Min(a: int, b: int): int {
    if a <= b then a else b
  }

  function Zeros(n: nat): (z: seq<byte>)
    ensures |z| == n
    ensures forall i :: 0 <= i < n ==> z[i] == 0
  {
    seq(n, _ => 0)
  }

  /**
   * The frame `write` transmits for command `cmd`: the bytes Go's `copy` puts
   * into a fresh zero-filled 30-byte buffer. A longer command is cut to 30 bytes.
   */
  function Frame(cmd: seq<byte>): (f: seq<byte>)
    ensures |f| == FrameLen
    ensures forall i :: 0 <= i < FrameLen ==> f[i] == if i < |cmd| then cmd[i] else 0
  {
    var n := Min(|cmd|, FrameLen);
    cmd[..n] + Zeros(FrameLen - n)
  }

  /** Go's `uint8(x)` on an integer: its low eight bits. */
  function Uint8(x: int): byte {
    (x % 256) as byte
  }

  /** Go's `+=` on a `byte`: addition modulo 256. */
  function AddByte(a: byte, b: byte): byte {
    ((a as int + b as int) % 256) as byte
  }

  /** The door-addressed open command: `msgOpen[1] += uint8(id)` on a copy of the template. */
  function OpenCommand(id: int): (cmd: seq<byte>)
    ensures |cmd| == 4
    ensures cmd[0] == 0x7F && cmd[2] == 0x06 && cmd[3] == 0x0F
    ensures cmd[1] as int == (0x40 + id) % 256
  {
    OpenTemplate[1 := AddByte(OpenTemplate[1], Uint8(id))]
  }

  /**
   * `Controller.write`: allocate a zero-filled 30-byte buffer and copy the
   * command into it; the result is what is handed to the port.
   */
  method EncodeFrame(cmd: seq<byte>) returns (msg: seq<byte>)
    ensures msg == Frame(cmd)
  {
    var buf := new byte[FrameLen](_ => 0);
    var n := Min(|cmd|, FrameLen);
    var i := 0;
    while i < n
      invariant 0 <= i <= n
      invariant forall k :: 0 <= k < i ==> buf[k] == cmd[k]
      invariant forall k :: i <= k < FrameLen ==> buf[k] == 0
    {
      buf[i] := cmd[i];
      i := i + 1;
    }
    msg := buf[..];
    assert forall k :: 0 <= k < FrameLen ==> msg[k] == Frame(cmd)[k];
  }

  /** What the port hands back to one `Read` call: the bytes the board sent, and its error. */
  datatype ReadOutcome = ReadOutcome(delivered: seq<byte>, err: Option<Errors.Error>)

  /**
   * `Controller.read`: a 30-byte buffer that the port fills with at most 30 of
   * the delivered bytes; the first `n` of them are returned with the port's error.
   */
  method ReadResponse(port: ReadOutcome) returns (resp: seq<byte>, err: Option<Errors.Error>)
    ensures |resp| == Min(|port.delivered|, FrameLen)
    ensures resp <= port.delivered
    ensures |port.delivered| <= FrameLen ==> resp == port.delivered
    ensures err == port.err
  {
    var buf := new byte[FrameLen](_ => 0);
    var n := Min(|port.delivered|, FrameLen);
    forall k | 0 <= k < n {
      buf[k] := port.delivered[k];
    }
    resp := buf[..n];
    err := port.err;
  }

  // Properties of the frame layout.

  /** A command that fits is sent verbatim, followed by zero padding. */
  lemma FrameOfShortCommand(cmd: seq<byte>)
    requires |cmd| <= FrameLen
    ensures Frame(cmd) == cmd + Zeros(FrameLen - |cmd|)
  {
  }

  /** A command longer than a frame loses everything past byte 29. */
  lemma FrameOfLongCommand(cmd: seq<byte>)
    requires |cmd| >= FrameLen
    ensures Frame(cmd) == cmd[..FrameLen]
  {
  }

  /** Trailing zeros on a command do not change its frame. */
  lemma FrameIgnoresTrailingZeros(cmd: seq<byte>, k: nat)
    ensures Frame(cmd + Zeros(k)) == Frame(cmd)
  {
  }

  /** Framing a frame gives it back: a frame is already 30 bytes of payload and padding. */
  lemma FrameIdempotent(cmd: seq<byte>)
    ensures Frame(Frame(cmd)) == Frame(cmd)
  {
  }

  /** The Init frame on the wire: `7F 7F 0A 01` and 26 zero bytes. */
  lemma InitFrameBytes()
    ensures Frame(InitCommand) == [0x7F, 0x7F, 0x0A, 0x01] + Zeros(26)
  {
  }

  /** The Open frame for door 2 on the wire: `7F 42 06 0F` and 26 zero bytes. */
  lemma OpenFrameDoor2()
    ensures Frame(OpenCommand(2)) == [0x7F, 0x42, 0x06, 0x0F] + Zeros(26)
  {
  }

  /** For the door ids that fit in the byte, byte 1 is exactly `0x40 + id`. */
  lemma OpenCommandNoWrap(id: int)
    requires 0 <= id <= 0xFF - 0x40
    ensures OpenCommand(id)[1] as int == 0x40 + id
  {
  }

  /** Beyond that the byte wraps silently: ids 256 apart address the same door. */
  lemma OpenCommandWraps(id: int)
    ensures OpenCommand(id + 256) == OpenCommand(id)
  {
  }

  /** Distinct door ids in the byte's range give distinct Open frames. */
  lemma OpenFrameInjective(a: int, b: int)
    requires 0 <= a <= 0xFF - 0x40 && 0 <= b <= 0xFF - 0x40
    requires Frame(OpenCommand(a)) == Frame(OpenCommand(b))
    ensures a == b
  {
  }

  /** No Open frame can be mistaken for the Init frame. */
  lemma OpenFrameIsNotInit(id: int)
    ensures Frame(OpenCommand(id)) != Frame(InitCommand)
  {
  }
}
