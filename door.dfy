/**
 * One door-open request (`Open`, main.go:67-113): take the door lock, pick the
 * device, open the port, send the Init frame, read the board's answer, send the
 * addressed Open frame, then close the port and release the lock.
 *
 * The port is abstract: what each port call returns is an input (`Script`), and
 * what the program asks of the port is recorded as a trace of events.
 */
module Door {

  import opened Wrappers
  import opened Errors
  import opened Frames
  import opened Devices
  import Http

  /** What the port (and the lock) observes. */
  datatype Event =
    | Lock                        // door.Lock()
    | Dial(conf: SerialConfig)    // serial.OpenPort(conf)
    | Transmit(frame: seq<byte>)  // port.Write(frame)
    | Read                        // port.Read(buf)
    | Close                       // deferred port.Close()
    | Unlock                      // deferred door.Unlock()
  {
    /** An operation on the serial link, as opposed to the lock. */
    predicate IsLinkOp() {
      !Lock? && !Unlock?
    }
  }

  /** What the port returns to each call of one request; `None` is success. */
  datatype Script = Script(
    dial: Option<Error>,
    initWrite: Option<Error>,
    read: ReadOutcome,
    openWrite: Option<Error>)

  /** What `Open` returns: the success body, or the error handed to `ErrHandler`. */
  datatype Reply = Succeeded | Failed(err: Error)

  datatype Run = Run(trace: seq<Event>, reply: Reply)

  /** The frames written to the port, in order. */
  function Transmitted(trace: seq<Event>): (frames: seq<seq<byte>>)
    ensures |frames| <= |trace|
  {
    if trace == [] then []
    else if trace[0].Transmit? then [trace[0].frame] + Transmitted(trace[1..])
    else Transmitted(trace[1..])
  }

  /** How many times `e` occurs in the trace. */
  function Count(trace: seq<Event>, e: Event): (n: nat)
    ensures n <= |trace|
  {
    if trace == [] then 0
    else (if trace[0] == e then 1 else 0) + Count(trace[1..], e)
  }

  /**
   * The run of one `Open(id)` when Glob returns `glob` and the port answers as
   * `script` says. The deferred calls run last, `port.Close()` before
   * `door.Unlock()`.
   */
  function Sequence(id: int, glob: GlobResult, script: Script): (r: Run)
    // the lock is taken first and released last, on every path, and only there
    ensures |r.trace| >= 2 && r.trace[0] == Lock && r.trace[|r.trace| - 1] == Unlock
    ensures forall i :: 0 < i < |r.trace| - 1 ==> r.trace[i].IsLinkOp()
    // the port is closed exactly when it was opened, as the last link operation
    ensures Close in r.trace <==> NewControllerAuto(glob).Success? && script.dial.None?
    ensures Close in r.trace ==> r.trace[|r.trace| - 2] == Close
    ensures forall i :: 0 <= i < |r.trace| - 2 ==> r.trace[i] != Close
    // success exactly when no step failed; the read's outcome plays no part
    ensures r.reply == Succeeded <==>
      NewControllerAuto(glob).Success? && script.dial.None? && script.initWrite.None? && script.openWrite.None?
    // an unresolved device: no link operation at all
    ensures NewControllerAuto(glob).Failure? ==>
      r == Run([Lock, Unlock], Failed(NewControllerAuto(glob).error))
    // a failed dial: nothing to close
    ensures NewControllerAuto(glob).Success? && script.dial.Some? ==>
      r == Run([Lock, Dial(NewControllerAuto(glob).value.conf), Unlock], Failed(script.dial.value))
    // a failed Init write: no read, no Open write, the port still closed
    ensures NewControllerAuto(glob).Success? && script.dial.None? && script.initWrite.Some? ==>
      r == Run([Lock, Dial(NewControllerAuto(glob).value.conf), Transmit(Frame(InitCommand)), Close, Unlock],
               Failed(script.initWrite.value))
    // otherwise both writes, one read between them, then close
    ensures NewControllerAuto(glob).Success? && script.dial.None? && script.initWrite.None? ==>
      r.trace == [Lock, Dial(NewControllerAuto(glob).value.conf), Transmit(Frame(InitCommand)), Read,
                  Transmit(Frame(OpenCommand(id))), Close, Unlock]
    ensures NewControllerAuto(glob).Success? && script.dial.None? && script.initWrite.None? && script.openWrite.Some? ==>
      r.reply == Failed(script.openWrite.value)
  {
    match NewControllerAuto(glob)
    case Failure(e) => Run([Lock, Unlock], Failed(e))
    case Success(ctrl) =>
      var dialed := [Lock, Dial(ctrl.conf)];
      if script.dial.Some? then Run(dialed + [Unlock], Failed(script.dial.value))
      else
        var initSent := dialed + [Transmit(Frame(InitCommand))];
        if script.initWrite.Some? then Run(initSent + [Close, Unlock], Failed(script.initWrite.value))
        else
          var openSent := initSent + [Read, Transmit(Frame(OpenCommand(id)))];
          var reply := if script.openWrite.Some? then Failed(script.openWrite.value) else Succeeded;
          Run(openSent + [Close, Unlock], reply)
  }

  lemma {:induction false} TransmittedAppend(a: seq<Event>, b: seq<Event>)
    ensures Transmitted(a + b) == Transmitted(a) + Transmitted(b)
  {
    if a == [] {
      assert a + b == b;
    } else {
      assert (a + b)[1..] == a[1..] + b;
      TransmittedAppend(a[1..], b);
    }
  }

  lemma {:induction false} CountAppend(a: seq<Event>, b: seq<Event>, e: Event)
    ensures Count(a + b, e) == Count(a, e) + Count(b, e)
  {
    if a == [] {
      assert a + b == b;
    } else {
      assert (a + b)[1..] == a[1..] + b;
      CountAppend(a[1..], b, e);
    }
  }

  /** The frames written by a one-event trace. */
  lemma TransmittedOne(e: Event)
    ensures Transmitted([e]) == if e.Transmit? then [e.frame] else []
  {
  }

  /** The board's answer to the Init frame, and whether reading it failed, change nothing. */
  lemma ReadOutcomeIgnored(id: int, glob: GlobResult, script: Script, other: ReadOutcome)
    ensures Sequence(id, glob, script.(read := other)) == Sequence(id, glob, script)
  {
  }

  /** The frames written by the trace of a failed Init write. */
  lemma TransmittedInitOnly(d: Event, init: seq<byte>)
    requires d.Dial?
    ensures Transmitted([Lock, d, Transmit(init), Close, Unlock]) == [init]
  {
    assert [Lock, d, Transmit(init), Close, Unlock] == [Lock, d] + [Transmit(init)] + [Close, Unlock];
    TransmittedAppend([Lock, d] + [Transmit(init)], [Close, Unlock]);
    TransmittedAppend([Lock, d], [Transmit(init)]);
    TransmittedNone([Lock, d]);
    TransmittedNone([Close, Unlock]);
    TransmittedOne(Transmit(init));
  }

  /** The frames written by the trace of a request that reached the Open write. */
  lemma TransmittedBoth(d: Event, init: seq<byte>, open: seq<byte>)
    requires d.Dial?
    ensures Transmitted([Lock, d, Transmit(init), Read, Transmit(open), Close, Unlock]) == [init, open]
  {
    var head, tail := [Lock, d, Transmit(init)], [Read, Transmit(open), Close, Unlock];
    assert [Lock, d, Transmit(init), Read, Transmit(open), Close, Unlock] == head + tail;
    assert head == [Lock, d] + [Transmit(init)];
    assert tail == [Read] + [Transmit(open)] + [Close, Unlock];
    TransmittedAppend(head, tail);
    TransmittedAppend([Lock, d], [Transmit(init)]);
    TransmittedAppend([Read] + [Transmit(open)], [Close, Unlock]);
    TransmittedAppend([Read], [Transmit(open)]);
    TransmittedNone([Lock, d]);
    TransmittedNone([Read]);
    TransmittedNone([Close, Unlock]);
    TransmittedOne(Transmit(init));
    TransmittedOne(Transmit(open));
  }

  /** The frames one request writes, case by case. */
  lemma TransmittedOfSequence(id: int, glob: GlobResult, script: Script)
    ensures Transmitted(Sequence(id, glob, script).trace) ==
      if NewControllerAuto(glob).Failure? || script.dial.Some? then []
      else if script.initWrite.Some? then [Frame(InitCommand)]
      else [Frame(InitCommand), Frame(OpenCommand(id))]
  {
    if NewControllerAuto(glob).Failure? {
      TransmittedNone([Lock, Unlock]);
    } else {
      var d := Dial(NewControllerAuto(glob).value.conf);
      if script.dial.Some? {
        TransmittedNone([Lock, d, Unlock]);
      } else if script.initWrite.Some? {
        TransmittedInitOnly(d, Frame(InitCommand));
      } else {
        TransmittedBoth(d, Frame(InitCommand), Frame(OpenCommand(id)));
      }
    }
  }

  /**
   * The frames the board receives: none without a port, then the Init frame,
   * and the Open frame for `id` only after the Init frame went through.
   */
  lemma TransmittedFrames(id: int, glob: GlobResult, script: Script)
    ensures var frames := Transmitted(Sequence(id, glob, script).trace);
      && frames <= [Frame(InitCommand), Frame(OpenCommand(id))]
      && (|frames| > 0 <==> NewControllerAuto(glob).Success? && script.dial.None?)
      && (|frames| == 2 <==> NewControllerAuto(glob).Success? && script.dial.None? && script.initWrite.None?)
      && forall k :: 0 <= k < |frames| ==> |frames[k]| == FrameLen
  {
    TransmittedOfSequence(id, glob, script);
  }

  /** A trace without writes transmits nothing. */
  lemma {:induction false} TransmittedNone(t: seq<Event>)
    requires forall i :: 0 <= i < |t| ==> !t[i].Transmit?
    ensures Transmitted(t) == []
  {
    if t != [] {
      TransmittedNone(t[1..]);
    }
  }

  /** A successful run reads exactly once and writes exactly twice. */
  lemma {:induction false} SuccessCounts(id: int, glob: GlobResult, script: Script)
    requires Sequence(id, glob, script).reply == Succeeded
    ensures Count(Sequence(id, glob, script).trace, Read) == 1
    ensures |Transmitted(Sequence(id, glob, script).trace)| == 2
  {
    TransmittedFrames(id, glob, script);
    var d := Dial(NewControllerAuto(glob).value.conf);
    var init, open := Transmit(Frame(InitCommand)), Transmit(Frame(OpenCommand(id)));
    var t := [Lock, d, init, Read, open, Close, Unlock];
    assert Sequence(id, glob, script).trace == t;
    assert t == [Lock, d, init] + [Read] + [open, Close, Unlock];
    CountAppend([Lock, d, init] + [Read], [open, Close, Unlock], Read);
    CountAppend([Lock, d, init], [Read], Read);
    CountNone([Lock, d, init], Read);
    CountNone([open, Close, Unlock], Read);
    assert [Read][1..] == [];
  }

  /** An event that does not occur is counted zero times. */
  lemma {:induction false} CountNone(t: seq<Event>, e: Event)
    requires e !in t
    ensures Count(t, e) == 0
  {
    if t != [] {
      assert t == [t[0]] + t[1..];
      CountNone(t[1..], e);
    }
  }

  /** Door 2, one device found, every port call succeeds. */
  lemma Door2Scenario(device: string, answer: ReadOutcome)
    ensures Sequence(2, Success([device]), Script(None, None, answer, None)) ==
      Run([Lock, Dial(SerialConfig(device, 9600, 5 * 1_000_000_000)),
           Transmit([0x7F, 0x7F, 0x0A, 0x01] + Zeros(26)), Read,
           Transmit([0x7F, 0x42, 0x06, 0x0F] + Zeros(26)), Close, Unlock],
          Succeeded)
  {
    InitFrameBytes();
    OpenFrameDoor2();
  }

  /** The default door with no device: a 500 response and not a byte sent. */
  lemma NoDeviceScenario(script: Script)
    ensures var r := Sequence(0, Success([]), script);
      && r.reply == Failed(DeviceNotFound)
      && Transmitted(r.trace) == []
      && Http.ErrHandler(r.reply.err) == Http.ErrorResponse(500, FiberError(500, "device interface not found"))
  {
  }

  /**
   * The program's global state: the two command templates (`MsgInit`,
   * `MsgOpen`) and the door mutex, seen as a held/free flag.
   */
  class Server {
    const msgInit: array<byte>
    const msgOpen: array<byte>
    var locked: bool

    ghost predicate Valid()
      reads msgInit, msgOpen
    {
      msgInit[..] == InitCommand && msgOpen[..] == OpenTemplate
    }

    constructor ()
      ensures Valid() && !locked
    {
      msgInit := new byte[4](i requires 0 <= i < 4 => InitCommand[i]);
      msgOpen := new byte[4](i requires 0 <= i < 4 => OpenTemplate[i]);
      locked := false;
      new;
      assert msgInit[..] == InitCommand;
      assert msgOpen[..] == OpenTemplate;
    }

    /** `msgOpen := append([]byte{}, MsgOpen...); msgOpen[1] += uint8(id)`: the template itself is left alone. */
    method AddressedOpen(id: int) returns (cmd: seq<byte>)
      requires Valid()
      ensures cmd == OpenCommand(id)
    {
      var template := msgOpen[..];
      var buf := new byte[|template|](i requires 0 <= i < |template| => template[i]);
      buf[1] := AddByte(buf[1], Uint8(id));
      cmd := buf[..];
    }

    /**
     * `Open`: the whole request, holding the lock throughout. It returns the
     * events the port saw and the reply.
     */
    method Open(id: int, glob: GlobResult, script: Script) returns (run: Run)
      requires Valid() && !locked
      modifies this`locked
      ensures Valid() && !locked
      ensures msgInit[..] == old(msgInit[..]) && msgOpen[..] == old(msgOpen[..])
      ensures run == Sequence(id, glob, script)
    {
      locked := true;
      var trace := [Lock];
      var cmd := AddressedOpen(id);

      var ctrl := NewControllerAuto(glob);
      if ctrl.Failure? {
        trace, locked := trace + [Unlock], false;
        return Run(trace, Failed(ctrl.error));
      }

      trace := trace + [Dial(ctrl.value.conf)];
      if script.dial.Some? {
        trace, locked := trace + [Unlock], false;
        return Run(trace, Failed(script.dial.value));
      }

      var init := EncodeFrame(msgInit[..]);
      trace := trace + [Transmit(init)];
      if script.initWrite.Some? {
        trace, locked := trace + [Close, Unlock], false;
        return Run(trace, Failed(script.initWrite.value));
      }

      var _, _ := ReadResponse(script.read);
      trace := trace + [Read];

      var open := EncodeFrame(cmd);
      trace := trace + [Transmit(open)];
      if script.openWrite.Some? {
        trace, locked := trace + [Close, Unlock], false;
        return Run(trace, Failed(script.openWrite.value));
      }

      trace, locked := trace + [Close, Unlock], false;
      run := Run(trace, Succeeded);
    }
  }
}
