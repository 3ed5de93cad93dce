# Door-controller protocol of eltis, modelled in Dafny

eltis is a small HTTP service that releases an electric door strike. It does
this by sending fixed 30-byte command frames to a controller board over a
serial port. This project models the service's protocol layer, all of it in
`main.go`:

- the two command prefixes `MsgInit` (`7F 7F 0A 01`) and `MsgOpen` (`7F 40 06 0F`);
- `Controller.write`, which zero-pads a command into a 30-byte frame, and
  `Controller.read`, which returns at most 30 bytes;
- the door id added to byte 1 of a copy of `MsgOpen`, wrapping modulo 256;
- device selection (`NewControllerAuto`, `NewController`);
- the `Open` request: take the door mutex, resolve the device, dial, write
  Init, read, write Open, then the deferred close and unlock;
- the status code `ErrHandler` picks.

Files:

- `wrappers.dfy`: `Option` and `Result`.
- `errors.dfy`: the errors that can reach the HTTP layer, and their messages.
- `frames.dfy` (module `Frames`): the byte type, the frame layout, the two
  prefixes and the door-id arithmetic. `EncodeFrame` models `write` and
  `ReadResponse` models `read`, each on its own 30-byte buffer.
- `devices.dfy` (module `Devices`): the serial configuration and device
  selection.
- `handler.dfy` (module `Http`): `ErrHandler`.
- `door.dfy` (module `Door`): the event trace of one request and the
  function `Sequence` that specifies it.
  - The class `Server` holds the global templates as arrays and the door
    mutex as a held/free flag.
  - Its method `Open` builds the trace step by step and is proved equal to
    `Sequence`.
  - It also proves that the templates are unchanged and the flag is free
    again on every path.

The serial port is abstract. What `OpenPort`, `Write` and `Read` return in
one request is an input (`Door.Script`). The model records what the program
asks of the port, and of the lock, as a trace of events:
`Lock`, `Dial`, `Transmit`, `Read`, `Close`, `Unlock`. The candidate list
`filepath.Glob` would return, or its error, is an input as well.

Behaviour the model takes from the code as written:

- A command longer than 30 bytes is cut to 30 bytes, as Go's `copy` does.
  The program never sends one.
- The device is the first path in the list Glob returns. Glob's sorting is
  not modelled, so "lexicographically first" is not stated.
- The controller is built again for every request, not once at start-up.
- A door id of any integer value is accepted. Its low byte is added, so a
  negative id or one above 191 wraps silently.

## Model

| member | source | states |
|---|---|---|
| `Frames.Frame` | main.go:157-159 | the frame is exactly 30 bytes; byte i is the command's byte i when the command has one, else 0 |
| `Frames.EncodeFrame` | main.go:157-163 | filling a fresh zeroed 30-byte buffer with `copy` produces exactly `Frame(cmd)` |
| `Frames.ReadResponse` | main.go:165-170 | the response is the first min(n, 30) of the n delivered bytes, so at most 30 and a prefix of what the board sent; the port's error is returned unchanged |
| `Frames.OpenCommand` | main.go:22 | addressed Open prefix: 4 bytes, `7F ?? 06 0F`, with byte 1 equal to (0x40 + id) mod 256 |
| `Frames.FrameOfShortCommand` | main.go:158-159 | a command of at most 30 bytes is sent verbatim followed by 30 - n zero bytes |
| `Frames.FrameOfLongCommand` | main.go:158-159 | a command of 30 bytes or more is truncated to its first 30 bytes |
| `Frames.FrameIgnoresTrailingZeros` | main.go:158-159 | appending zero bytes to a command does not change its frame |
| `Frames.FrameIdempotent` | main.go:158-159 | framing a frame again returns it unchanged |
| `Frames.InitFrameBytes` | main.go:21 | the Init frame on the wire is `7F 7F 0A 01` followed by 26 zero bytes |
| `Frames.OpenFrameDoor2` | main.go:72-73 | the Open frame for door 2 is `7F 42 06 0F` followed by 26 zero bytes |
| `Frames.OpenCommandNoWrap` | main.go:73 | for ids 0..191 byte 1 is exactly 0x40 + id |
| `Frames.OpenCommandWraps` | main.go:73 | ids 256 apart yield the same command (silent wrap-around) |
| `Frames.OpenFrameInjective` | main.go:72-73 | distinct ids in 0..191 yield distinct Open frames |
| `Frames.OpenFrameIsNotInit` | main.go:21-22 | no Open frame equals the Init frame |
| `Devices.NewController` | main.go:136-146 | never fails; Name is the given device, Baud 9600, ReadTimeout 5 s (in nanoseconds) |
| `Devices.NewControllerAuto` | main.go:123-134 | a glob error is passed through; an empty candidate list gives `DeviceNotFound`; a controller exists exactly when the list is non-empty, and it uses the first candidate at 9600 baud with 5 s read timeout |
| `Http.ErrHandler` | main.go:55-65 | status is the error's own code for a `fiber.Error`, else 500; the body carries that same status and the error's message |
| `Http.ErrHandlerIdempotent` | main.go:58-59 | re-handling a response body as a `fiber.Error` yields the identical response |
| `Door.Sequence` | main.go:67-112 | the lock comes first and the unlock last on every path, with only link operations between them; Close happens exactly when dial succeeded, once, as the last link operation; the reply is success exactly when resolve, dial, Init write and Open write all succeed; an unresolved device gives no link operations at all; a failed dial gives no close; a failed Init write gives no read and no Open write but still a close; otherwise the trace is dial, Init frame, read, Open(id) frame, close |
| `Door.ReadOutcomeIgnored` | main.go:99-102 | the bytes and the error of the read change neither the trace nor the reply |
| `Door.TransmittedFrames` | main.go:94-108 | the frames transmitted are a prefix of [Init frame, Open(id) frame]; there are some exactly when the port was opened, and both exactly when the Init write succeeded; each is exactly 30 bytes |
| `Door.TransmittedOfSequence` | main.go:86-108 | the frames written, case by case: none if the device is unresolved or dial fails, only the Init frame if the Init write fails, else the Init frame then the Open(id) frame |
| `Door.SuccessCounts` | main.go:86-112 | a successful request reads exactly once and writes exactly twice |
| `Door.Door2Scenario` | main.go:67-112 | door 2 with one device and every call succeeding: dial the device at 9600 baud/5 s, send `7F 7F 0A 01`+26 zeros, read, send `7F 42 06 0F`+26 zeros, close, success |
| `Door.NoDeviceScenario` | main.go:77-81 | door 0 with no candidate device: `DeviceNotFound`, no frame sent, and `ErrHandler` answers 500 with "device interface not found" |
| `Door.Server.constructor` | main.go:21-23 | the templates hold `MsgInit` and `MsgOpen` and the door mutex is free |
| `Door.Server.AddressedOpen` | main.go:72-73 | the copied-and-addressed command equals `OpenCommand(id)`; the global template is only read |
| `Door.Server.Open` | main.go:67-113 | the run equals `Sequence(id, glob, script)`; the mutex flag is free again on return and both global templates are unchanged |

## Left out

- HTTP routing, the fiber context, JSON rendering and `ParamsInt` parsing (main.go:39-53, 71) are library plumbing. The door id is an input integer, and the success body is the reply `Succeeded`.
- Argument parsing, logger set-up (main.go:25-37) and every `log` call have no effect on behaviour.
- The serial library is foreign code. This covers `serial.OpenPort`, partial writes by `port.Write`, the timing of `port.Read` and the 5 s timeout as it acts (main.go:148-155, 161, 168). Their results are inputs; the timeout appears only as a configuration value.
- `filepath.Glob` is filesystem I/O. Its result (the candidates in order, or an error) is an input, so the sorting of matches is not modelled.
- Mutual exclusion between concurrent requests is not modelled, since concurrency is outside the model. The mutex is a held/free flag within one sequential call.
- Door.Server.Open: requires the flag to be free. A second `Lock` by the same sequential caller would block forever.
- `recover` of panics at the HTTP boundary (main.go:42) is not modelled.
