/**
 * The state of one counter device and what each file operation of the
 * driver does to it, as functions on values.
 *
 * A device record holds a `uint8_t` counter and an `int` step.  Every
 * assignment of an `int` to the counter field converts the value to an
 * unsigned byte, which ISO C (section 6.3.1.3 of ISO/IEC 9899) defines as
 * reduction modulo 256.  Transfers to and from user memory are reduced to
 * "succeeded" flags.
 */
module DeviceState {

  /** Number of device records the driver reserves. */
  const MAX_DEVICES := 10

  /** Bounds tested by the read path before it hands out a byte. */
  const MAX_NUMBER := 255
  const MIN_NUMBER := -1

  /** Linux error numbers; the driver returns their negation. */
  const EFAULT := 14
  const EINVAL := 22
  const ENOTTY := 25

  const INT_MIN := -0x8000_0000
  const INT_MAX := 0x7fff_ffff

  /** A C `uint8_t`. */
  type uint8 = x: int | 0 <= x < 0x100

  /** A C `int` on every Linux target: 32-bit two's complement. */
  type int32 = x: int | INT_MIN <= x <= INT_MAX

  datatype Option<T> = None | Some(value: T)

  /** One `struct device_data`, without its character-device registration. */
  datatype DeviceData = DeviceData(counterValue: uint8, step: int32)

  /** The values every configured device starts with and returns to on reset. */
  const Initial := DeviceData(0, 1)

  /** The control commands; `Other` stands for every unrecognised command word. */
  datatype Command = Rst | Get | Stp | Other

  /**
   * Conversion of an `int` to `uint8_t` on assignment: the unique byte
   * congruent to `x` modulo 256.
   */
  function ToUint8(x: int): (b: uint8)
    ensures (x - b) % 256 == 0
  {
    x % 256
  }

  /**
   * The two range tests of the read path, applied to a value that has been
   * promoted from `uint8_t` to `int`: above MAX_NUMBER becomes 0, at or below
   * MIN_NUMBER becomes 255.  A byte is never outside 0..255, so neither
   * test changes anything.
   */
  function Normalise(v: uint8): (w: int)
    ensures w == v
  {
    var promoted: int := v;
    var v1 := if promoted > MAX_NUMBER then 0 else promoted;
    if v1 <= MIN_NUMBER then 255 else v1
  }

  /**
   * Outcome of one read: the return value, the byte that reached the caller's
   * buffer (if any) and the device afterwards.
   */
  datatype ReadReply = ReadReply(ret: int, delivered: Option<uint8>, dev: DeviceData)

  /**
   * A read of `length` bytes; `copyOk` says whether the copy of the byte to
   * the caller succeeds.  The byte handed out is captured before the range
   * tests, the length is checked after them, and the counter advances by the
   * step only after a successful copy.
   */
  function ReadDevice(d: DeviceData, length: nat, copyOk: bool): (r: ReadReply)
    ensures r.ret == 1 <==> length >= 1 && copyOk
    ensures r.ret == 1 || r.ret == -EINVAL || r.ret == -EFAULT
    ensures length < 1 ==> r.ret == -EINVAL
    ensures length >= 1 && !copyOk ==> r.ret == -EFAULT
    ensures r.ret != 1 ==> r.dev == d && r.delivered == None
    ensures r.ret == 1 ==> r.delivered == Some(d.counterValue)
    ensures r.ret == 1 ==> r.dev.counterValue == (d.counterValue + d.step) % 256
    ensures r.dev.step == d.step
  {
    var data := d.counterValue;
    var n := d.(counterValue := Normalise(d.counterValue));
    if length < 1 then ReadReply(-EINVAL, None, n)
    else if !copyOk then ReadReply(-EFAULT, None, n)
    else ReadReply(1, Some(data), n.(counterValue := ToUint8(n.counterValue + n.step)))
  }

  /** Outcome of one write: the return value and the device afterwards. */
  datatype WriteReply = WriteReply(ret: int, dev: DeviceData)

  /**
   * What `copy_from_user` returns for a one-byte copy: the number of bytes
   * it could not copy.
   */
  function BytesNotCopied(copyOk: bool): (n: nat)
    ensures n <= 1
    ensures n == 0 <==> copyOk
  {
    if copyOk then 0 else 1
  }

  /**
   * A write of `length` bytes.  `copyOk` says whether the copy from the
   * caller succeeds and `value` is the byte the copy leaves in the driver's
   * local variable (the caller's byte when it succeeds).  The fault test
   * compares the count of uncopied bytes with zero from below, so it never
   * rejects anything: only the length decides the outcome.
   */
  function WriteDevice(d: DeviceData, length: nat, copyOk: bool, value: uint8): (r: WriteReply)
    ensures r.ret == 1 <==> length == 1
    ensures length != 1 ==> r.ret == -EINVAL && r.dev == d
    ensures length == 1 ==> r.dev == DeviceData(value, d.step)
  {
    if length != 1 then WriteReply(-EINVAL, d)
    else
      var bytesWritten: int := BytesNotCopied(copyOk);
      if bytesWritten < 0 then WriteReply(bytesWritten, d)
      else WriteReply(1, d.(counterValue := value))
  }

  /**
   * Outcome of one control request: the return value, the integer written to
   * the caller's memory (only by a successful GET) and the device afterwards.
   */
  datatype IoctlReply = IoctlReply(ret: int, reported: Option<int>, dev: DeviceData)

  /**
   * A control request.  `copyOk` says whether the one user-memory transfer
   * the command performs succeeds (out for GET, in for STP; RST and unknown
   * commands perform none), and `stepArg` is the integer an STP request
   * carries.
   */
  function IoctlDevice(d: DeviceData, cmd: Command, copyOk: bool, stepArg: int32): (r: IoctlReply)
    ensures r.ret == 0 || r.ret == -EFAULT || r.ret == -ENOTTY
    ensures r.ret == -ENOTTY <==> cmd == Other
    ensures r.ret == -EFAULT <==> (cmd == Get || cmd == Stp) && !copyOk
    ensures r.ret != 0 ==> r.dev == d && r.reported == None
    ensures cmd == Rst ==> r.ret == 0 && r.dev == Initial
    ensures cmd == Get ==> r.dev == d
    ensures cmd == Get && copyOk ==> r.reported == Some(d.counterValue)
    ensures cmd != Get ==> r.reported == None
    ensures cmd == Stp && copyOk ==> r.dev == DeviceData(d.counterValue, stepArg)
  {
    match cmd
    case Rst => IoctlReply(0, None, d.(counterValue := 0, step := 1))
    case Get =>
      var counterValue: int := d.counterValue;
      if !copyOk then IoctlReply(-EFAULT, None, d) else IoctlReply(0, Some(counterValue), d)
    case Stp =>
      if !copyOk then IoctlReply(-EFAULT, None, d) else IoctlReply(0, None, d.(step := stepArg))
    case Other => IoctlReply(-ENOTTY, None, d)
  }

  /**
   * The value a 32-bit two's complement addition produces for the
   * mathematical sum `x`.
   */
  function Wrap32(x: int): (w: int32)
    ensures (x - w) % 0x1_0000_0000 == 0
  {
    (x - INT_MIN) % 0x1_0000_0000 + INT_MIN
  }

  /**
   * `counter_value + step` is an `int` addition, undefined in ISO C when it
   * exceeds INT_MAX (a step above INT_MAX - 255).  Reduced to a byte, the
   * two's complement wrap-around result equals the mathematical sum's, so
   * the stored counter is the same either way.
   */
  lemma WrappedSumSameByte(v: uint8, s: int32)
    ensures ToUint8(Wrap32(v + s)) == ToUint8(v + s)
  {
  }

  /** The bytes handed out by a run of successful reads and the device afterwards. */
  datatype Reads = Reads(outputs: seq<uint8>, dev: DeviceData)

  /** `k` one-byte reads in a row, each of whose copies succeeds. */
  function ReadTimes(d: DeviceData, k: nat): (r: Reads)
    decreases k
  {
    if k == 0 then Reads([], d)
    else
      var first := ReadDevice(d, 1, true);
      var rest := ReadTimes(first.dev, k - 1);
      Reads([first.delivered.value] + rest.outputs, rest.dev)
  }

  /** The byte a counter started at `v` holds after `i` advances by `s`. */
  function Advanced(v: int, s: int, i: nat): (b: uint8)
    ensures (v + i * s - b) % 256 == 0
  {
    ToUint8(v + i * s)
  }

  /** Advancing `i + 1` times is one advance followed by `i` more. */
  lemma AdvancedShift(v: int, s: int, i: nat)
    ensures Advanced(ToUint8(v + s), s, i) == Advanced(v, s, i + 1)
  {
  }

  /**
   * Successive reads hand out v, v + s, v + 2s, ... each reduced modulo 256,
   * and leave the counter at v + k * s modulo 256 with the step untouched.
   */
  lemma {:induction false} RepeatedReads(d: DeviceData, k: nat)
    ensures |ReadTimes(d, k).outputs| == k
    ensures forall i :: 0 <= i < k ==>
      ReadTimes(d, k).outputs[i] == Advanced(d.counterValue, d.step, i)
    ensures ReadTimes(d, k).dev == DeviceData(Advanced(d.counterValue, d.step, k), d.step)
    decreases k
  {
    var v, s := d.counterValue, d.step;
    if k == 0 {
      assert Advanced(v, s, 0) == v;
    } else {
      var first := ReadDevice(d, 1, true);
      assert first.dev == DeviceData(ToUint8(v + s), s);
      RepeatedReads(first.dev, k - 1);
      var rest := ReadTimes(first.dev, k - 1);
      assert ReadTimes(d, k).outputs == [v] + rest.outputs;
      assert Advanced(v, s, 0) == v;
      forall i | 1 <= i < k
        ensures ReadTimes(d, k).outputs[i] == Advanced(v, s, i)
      {
        AdvancedShift(v, s, i - 1);
      }
      AdvancedShift(v, s, k - 1);
    }
  }

  /** A byte written is exactly what the next GET reports. */
  lemma WriteThenGet(d: DeviceData, copyOk: bool, b: uint8)
    ensures IoctlDevice(WriteDevice(d, 1, copyOk, b).dev, Get, true, 0).reported == Some(b)
  {
  }

  /**
   * A new step takes effect from the very next read: that read still hands
   * out the current counter and then advances it by the new step.
   */
  lemma StepAppliesFromNextRead(d: DeviceData, s: int32)
    ensures var r := ReadDevice(IoctlDevice(d, Stp, true, s).dev, 1, true);
      r.delivered == Some(d.counterValue) && r.dev == DeviceData((d.counterValue + s) % 256, s)
  {
  }

  /** Runs of reads from given values, with the bytes they hand out. */
  lemma ReadsFromStartUp()
    ensures ReadTimes(Initial, 3) == Reads([0, 1, 2], DeviceData(3, 1))
  {
    var r := ReadTimes(Initial, 3);
    RepeatedReads(Initial, 3);
    assert r.outputs[0] == Advanced(0, 1, 0) == 0;
    assert r.outputs[1] == Advanced(0, 1, 1) == 1;
    assert r.outputs[2] == Advanced(0, 1, 2) == 2;
    assert r.dev == DeviceData(Advanced(0, 1, 3), 1) == DeviceData(3, 1);
    assert r.outputs == [0, 1, 2];
  }

  /**
   * From the start-up values three reads hand out 0, 1, 2; after writing 250
   * two reads hand out 250, 251; after setting the step to -5 two reads hand
   * out 252 and 247.
   */
  lemma StartUpScenario()
    ensures ReadTimes(Initial, 3).outputs == [0, 1, 2]
    ensures var w := WriteDevice(ReadTimes(Initial, 3).dev, 1, true, 250).dev;
      ReadTimes(w, 2).outputs == [250, 251] &&
      ReadTimes(IoctlDevice(ReadTimes(w, 2).dev, Stp, true, -5).dev, 2).outputs == [252, 247]
  {
    ReadsFromStartUp();
    var w := WriteDevice(DeviceData(3, 1), 1, true, 250).dev;
    assert w == DeviceData(250, 1);
    RepeatedReads(w, 2);
    assert Advanced(250, 1, 0) == 250 && Advanced(250, 1, 1) == 251 && Advanced(250, 1, 2) == 252;
    var t := IoctlDevice(DeviceData(252, 1), Stp, true, -5).dev;
    assert t == DeviceData(252, -5);
    RepeatedReads(t, 2);
    assert Advanced(252, -5, 0) == 252 && Advanced(252, -5, 1) == 247;
  }

  /**
   * The counter wraps as a byte at the moment it is stored: from 255 with
   * step 10 a read hands out 255 and the next one 9; from 2 with step -5 the
   * second read hands out 253.
   */
  lemma WrapScenario()
    ensures ReadTimes(DeviceData(255, 10), 2).outputs == [255, 9]
    ensures ReadTimes(DeviceData(2, -5), 2).outputs == [2, 253]
  {
    RepeatedReads(DeviceData(255, 10), 2);
    assert Advanced(255, 10, 0) == 255 && Advanced(255, 10, 1) == 9;
    RepeatedReads(DeviceData(2, -5), 2);
    assert Advanced(2, -5, 0) == 2 && Advanced(2, -5, 1) == 253;
  }
}
