/**
 * The counter driver's global state and its file operations.
 *
 * The driver owns a fixed array of MAX_DEVICES device records; an open file
 * is bound to one of them by its minor number and every later operation on
 * that file acts on that record alone.  Two files opened on the same minor
 * are bound to the same record.  Requests are modelled as running one at a
 * time, each to completion.
 */
module CounterDriver {
  import opened DeviceState

  /** An open file; `privateData` is the index of the record it is bound to. */
  class File {
    var privateData: Option<nat>

    constructor ()
      ensures privateData == None
    {
      privateData := None;
    }
  }

  class Driver {
    /** The `num_devices` module parameter, fixed when the module is loaded. */
    const numDevices: int
    /** The statically allocated `counter_devices` array. */
    const devices: array<DeviceData>

    ghost predicate Valid()
      reads this
    {
      devices.Length == MAX_DEVICES && numDevices <= MAX_DEVICES
    }

    /** A file the kernel may hand to read, write or ioctl: bound to a configured record. */
    ghost predicate Opened(file: File)
      reads this, file
    {
      file.privateData.Some? && 0 <= file.privateData.value < numDevices
    }

    /** The record `file` is bound to. */
    ghost function Bound(file: File): (m: nat)
      reads this, file
      requires Valid() && Opened(file)
      ensures m < devices.Length
    {
      file.privateData.value
    }

    /**
     * Module load: static storage is zero filled (counter 0, step 0), then the
     * initialisation loop resets the first `numDevices` records before any of
     * them can be opened.
     */
    constructor (numDevices: int)
      requires numDevices <= MAX_DEVICES
      ensures Valid() && fresh(devices) && this.numDevices == numDevices
      ensures forall i :: 0 <= i < devices.Length ==>
        devices[i] == if i < numDevices then Initial else DeviceData(0, 0)
    {
      this.numDevices := numDevices;
      devices := new DeviceData[MAX_DEVICES](_ => DeviceData(0, 0));
      new;
      Init();
    }

    /**
     * The field resets of the module's initialisation loop: each of the first
     * `numDevices` records gets counter 0 and step 1, the rest keep their
     * contents.
     */
    method Init()
      requires Valid()
      modifies devices
      ensures forall i :: 0 <= i < devices.Length ==>
        devices[i] == if i < numDevices then Initial else old(devices[i])
    {
      var i := 0;
      while i < numDevices
        invariant 0 <= i && (i <= numDevices || i == 0)
        invariant forall j :: 0 <= j < devices.Length ==>
          devices[j] == if j < i then Initial else old(devices[j])
      {
        devices[i] := devices[i].(counterValue := 0);
        devices[i] := devices[i].(step := 1);
        i := i + 1;
      }
    }

    /** Binds `file` to the record of its minor number; always succeeds. */
    method Open(file: File, minor: int) returns (ret: int)
      requires Valid() && 0 <= minor < numDevices
      modifies file
      ensures ret == 0 && file.privateData == Some(minor) && Opened(file)
    {
      file.privateData := Some(minor);
      ret := 0;
    }

    /** Releasing a file always succeeds and changes neither the file nor any record. */
    method Release(file: File) returns (ret: int)
      ensures ret == 0
    {
      ret := 0;
    }

    /**
     * Reads from the record `file` is bound to; `buffer` is what reaches the
     * caller.  No other record changes.
     */
    method Read(file: File, length: nat, copyOk: bool) returns (ret: int, buffer: Option<uint8>)
      requires Valid() && Opened(file)
      modifies devices
      ensures var r := ReadDevice(old(devices[Bound(file)]), length, copyOk);
        ret == r.ret && buffer == r.delivered && devices[Bound(file)] == r.dev
      ensures forall i :: 0 <= i < devices.Length && i != Bound(file) ==> devices[i] == old(devices[i])
    {
      var m := file.privateData.value;
      var data := devices[m].counterValue;
      devices[m] := devices[m].(counterValue := Normalise(devices[m].counterValue));
      if length < 1 {
        return -EINVAL, None;
      }
      if !copyOk {
        return -EFAULT, None;
      }
      buffer := Some(data);
      devices[m] := devices[m].(counterValue := ToUint8(devices[m].counterValue + devices[m].step));
      ret := 1;
    }

    /**
     * Writes the byte `value` (what the copy from the caller leaves behind)
     * to the record `file` is bound to.  No other record changes.
     */
    method Write(file: File, length: nat, copyOk: bool, value: uint8) returns (ret: int)
      requires Valid() && Opened(file)
      modifies devices
      ensures var r := WriteDevice(old(devices[Bound(file)]), length, copyOk, value);
        ret == r.ret && devices[Bound(file)] == r.dev
      ensures forall i :: 0 <= i < devices.Length && i != Bound(file) ==> devices[i] == old(devices[i])
    {
      var m := file.privateData.value;
      if length != 1 {
        return -EINVAL;
      }
      var bytesWritten: int := BytesNotCopied(copyOk);
      if bytesWritten < 0 {
        return bytesWritten;
      }
      devices[m] := devices[m].(counterValue := value);
      ret := 1;
    }

    /**
     * A control request on the record `file` is bound to; `reported` is what
     * a GET writes to the caller.  No other record changes.
     */
    method Ioctl(file: File, cmd: Command, copyOk: bool, stepArg: int32)
      returns (ret: int, reported: Option<int>)
      requires Valid() && Opened(file)
      modifies devices
      ensures var r := IoctlDevice(old(devices[Bound(file)]), cmd, copyOk, stepArg);
        ret == r.ret && reported == r.reported && devices[Bound(file)] == r.dev
      ensures forall i :: 0 <= i < devices.Length && i != Bound(file) ==> devices[i] == old(devices[i])
    {
      var m := file.privateData.value;
      ret, reported := 0, None;
      match cmd
      case Rst =>
        devices[m] := devices[m].(counterValue := 0);
        devices[m] := devices[m].(step := 1);
      case Get =>
        var counterValue: int := devices[m].counterValue;
        if !copyOk {
          return -EFAULT, None;
        }
        reported := Some(counterValue);
      case Stp =>
        if !copyOk {
          return -EFAULT, None;
        }
        devices[m] := devices[m].(step := stepArg);
      case Other =>
        return -ENOTTY, None;
    }
  }

  /**
   * Two files opened on the same minor share one record: a byte written
   * through one is what a GET through the other reports, whether or not the
   * copy of the written byte faulted.
   */
  method SharedRecord(drv: Driver, f1: File, f2: File, minor: int, copyOk: bool, b: uint8)
    returns (reported: Option<int>)
    requires drv.Valid() && 0 <= minor < drv.numDevices
    modifies f1, f2, drv.devices
    ensures reported == Some(b)
  {
    var _ := drv.Open(f1, minor);
    var _ := drv.Open(f2, minor);
    var w := drv.Write(f1, 1, copyOk, b);
    var g;
    g, reported := drv.Ioctl(f2, Get, true, 0);
  }
}
