/**
 * The command-line control client: how its arguments select one operation
 * and its argument, and what value `main` returns.
 *
 * The client is invoked as `prog <dev> { rst | get | stp <val> | err }`.
 * What is modelled is the value `main` returns; the process exit status the
 * shell sees is that value reduced modulo 256.
 * The conversion of `<val>` by `strtol`, the opening of the device and the
 * control request itself are outside the model; their outcomes are inputs.
 */
module Ctl {
  import DeviceState

  /** A C `int8_t`. */
  type int8 = x: int | -0x80 <= x < 0x80

  /** The operations `main` can pick; each is a function of the client. */
  datatype Op = Usage | Rst | Get | Stp | Err

  /**
   * What converting `<val>` reported: whether `errno` was set, whether the
   * conversion stopped at the end of the string, and the value converted.
   */
  datatype Conversion = Conversion(errnoSet: bool, wholeString: bool, value: int)

  /** The chosen operation and the `int8_t` argument passed to it. */
  datatype Selection = Selection(op: Op, oparg: int8)

  /** An accepted step argument: fully converted, no error, within `int8_t`. */
  predicate AcceptedStep(conv: Conversion)
  {
    !conv.errnoSet && conv.wholeString && -128 <= conv.value <= 127
  }

  /**
   * The decision on `argc` and the command word `command` (`argv[2]`); `conv`
   * describes the conversion of `argv[3]`, looked at only when a step is set.
   */
  function Select(argc: int, command: string, conv: Conversion): (s: Selection)
    ensures argc != 3 && argc != 4 ==> s.op == Usage
    ensures s.op == Rst <==> (argc == 3 || argc == 4) && command == "rst"
    ensures s.op == Get <==> (argc == 3 || argc == 4) && command == "get"
    ensures s.op == Err <==> (argc == 3 || argc == 4) && command == "err"
    ensures s.op == Stp <==> argc == 4 && command == "stp" && AcceptedStep(conv)
    ensures s.op == Stp ==> s.oparg == conv.value
    ensures s.op != Stp ==> s.oparg == 0
  {
    var oparg: int8 := 0;
    if argc == 3 || argc == 4 then
      if command == "rst" then Selection(Rst, oparg)
      else if command == "get" then Selection(Get, oparg)
      else if command == "stp" then
        if argc == 4 then
          if conv.errnoSet || !conv.wholeString || conv.value > 127 || conv.value < -128
          then Selection(Usage, oparg)
          else Selection(Stp, conv.value)
        else Selection(Usage, oparg)
      else if command == "err" then Selection(Err, oparg)
      else Selection(Usage, oparg)
    else Selection(Usage, oparg)
  }

  /** The value the usage function returns after printing the usage line. */
  const USAGE_RESULT := 1

  /**
   * How a run of the client ends: the selection, whether it tried to open
   * the device, whether it called the chosen operation, and the value `main`
   * returns.
   */
  datatype Run = Run(selection: Selection, openAttempted: bool, opRan: bool, result: int)

  /**
   * A whole run of `main`.  `openOk` says whether opening `argv[1]`
   * succeeds and `ioctlResult` is what the control request of a non-usage
   * operation returns.
   */
  function Main(argc: int, command: string, conv: Conversion, openOk: bool, ioctlResult: int): (r: Run)
    ensures r.selection == Select(argc, command, conv)
    ensures r.openAttempted <==> argc == 3 || argc == 4
    ensures r.opRan <==> !r.openAttempted || openOk
    ensures !r.openAttempted ==> r.selection.op == Usage && r.result == USAGE_RESULT
    ensures r.openAttempted && !openOk ==> r.result == 1
    ensures r.opRan && r.selection.op == Usage ==> r.result == USAGE_RESULT
    ensures r.opRan && r.selection.op != Usage ==> r.result == ioctlResult
  {
    var s := Select(argc, command, conv);
    if argc == 3 || argc == 4 then
      if !openOk then Run(s, true, false, 1)
      else Run(s, true, true, if s.op == Usage then USAGE_RESULT else ioctlResult)
    else Run(s, false, true, USAGE_RESULT)
  }

  /** The control command each operation sends to the driver; usage sends none. */
  function Request(op: Op): (c: DeviceState.Option<DeviceState.Command>)
    ensures c.None? <==> op == Usage
  {
    match op
    case Usage => DeviceState.None
    case Rst => DeviceState.Some(DeviceState.Rst)
    case Get => DeviceState.Some(DeviceState.Get)
    case Stp => DeviceState.Some(DeviceState.Stp)
    case Err => DeviceState.Some(DeviceState.Other)
  }

  /** The `rst` command makes the driver restore counter 0, step 1 and succeed. */
  lemma RstResets(d: DeviceState.DeviceData, copyOk: bool, stepArg: DeviceState.int32)
    ensures Request(Rst).Some?
    ensures var r := DeviceState.IoctlDevice(d, Request(Rst).value, copyOk, stepArg);
      r.ret == 0 && r.dev == DeviceState.Initial && r.reported == DeviceState.None
  {
  }

  /**
   * The `get` command leaves the record as it was and, when the copy to the
   * caller succeeds, reports the current counter.
   */
  lemma GetReports(d: DeviceState.DeviceData, copyOk: bool, stepArg: DeviceState.int32)
    ensures Request(Get).Some?
    ensures var r := DeviceState.IoctlDevice(d, Request(Get).value, copyOk, stepArg);
      r.dev == d && (copyOk ==> r.ret == 0 && r.reported == DeviceState.Some(d.counterValue))
  {
  }

  /**
   * The `stp` command, when the copy from the caller succeeds, replaces the
   * step with the carried value and keeps the counter.
   */
  lemma StpSetsStep(d: DeviceState.DeviceData, copyOk: bool, stepArg: DeviceState.int32)
    ensures Request(Stp).Some?
    ensures var r := DeviceState.IoctlDevice(d, Request(Stp).value, copyOk, stepArg);
      copyOk ==> r.ret == 0 && r.dev == DeviceState.DeviceData(d.counterValue, stepArg)
  {
  }

  /**
   * The `err` command sends a command number the driver does not know, so
   * the driver rejects it and leaves the device as it was.
   */
  lemma ErrIsRejected(d: DeviceState.DeviceData, copyOk: bool, stepArg: DeviceState.int32)
    ensures Request(Err).Some?
    ensures var r := DeviceState.IoctlDevice(d, Request(Err).value, copyOk, stepArg);
      r.ret == -DeviceState.ENOTTY && r.dev == d
  {
  }
}
