/**
 * Choosing the serial device and fixing its link parameters
 * (`NewControllerAuto`, `NewController`, main.go:119-146).
 */
module Devices {

  import opened Wrappers
  import opened Errors

  /** The glob pattern the candidates are matched against. */
  const DevicePattern: string := "/dev/ttyACM*"

  const Baud: nat := 9600

  /** One second as a Go `time.Duration` (nanoseconds). */
  const Second: nat := 1_000_000_000

  /** The read timeout: `5 * time.Second`. */
  const ReadTimeout: nat := 5 * Second

  /** The fields of `serial.Config` the program sets. */
  datatype SerialConfig = SerialConfig(name: string, baud: nat, readTimeout: nat)

  datatype Controller = Controller(conf: SerialConfig)

  /**
   * What `filepath.Glob(DevicePattern)` returned: the matching paths, in the
   * order Glob gives them, or its error.
   */
  type GlobResult = Result<seq<string>, Error>

  /** `NewController`: a controller for `device` at 9600 baud with a 5 s read timeout. It never fails. */
  function NewController(device: string): (r: Result<Controller, Error>)
    ensures r.Success?
    ensures r.value.conf.name == device
    ensures r.value.conf.baud == 9600 && r.value.conf.readTimeout == 5 * 1_000_000_000
  {
    Success(Controller(SerialConfig(device, Baud, ReadTimeout)))
  }

  /**
   * `NewControllerAuto`: pass a glob error through, report a missing device
   * when nothing matched, and otherwise use the first candidate.
   */
  function NewControllerAuto(glob: GlobResult): (r: Result<Controller, Error>)
    ensures glob.Failure? ==> r == Failure(glob.error)
    ensures glob.Success? && |glob.value| == 0 ==> r == Failure(DeviceNotFound)
    ensures r.Success? <==> glob.Success? && |glob.value| > 0
    ensures r.Success? ==> r.value.conf == SerialConfig(glob.value[0], 9600, 5 * 1_000_000_000)
  {
    match glob
    case Failure(e) => Failure(e)
    case Success(files) =>
      if |files| == 0 then Failure(DeviceNotFound)
      else NewController(files[0])
  }
}
