# Counter device driver — Dafny model

This project models a small Linux character-device driver, `Counter`, and its
command-line control client.

The driver reserves `MAX_DEVICES` = 10 device records. Each record holds an
8-bit counter (`uint8_t counter_value`) and a signed step (`int step`). The
module parameter `num_devices` (default 4) says how many of the records are
in use.

Opening a device node binds the file to the record of its minor number. On
that record:

- a read hands out the counter byte and then advances the counter by the
  step;
- a write of exactly one byte overwrites the counter;
- three control requests reset both fields (RST), report the counter (GET)
  or replace the step (STP).

The client `ctl` turns `prog <dev> { rst | get | stp <val> | err }` into one
of these control requests.

Three modules:

- `DeviceState` (`counter_state.dfy`): a record as a value, and each file
  operation as a function from a record and the outcome of its user-memory
  copy to a return value and a new record. It also holds the lemmas about
  runs of operations.
- `CounterDriver` (`counter_driver.dfy`): class `Driver` holds the
  `counter_devices` array and the module parameter. Its methods change the
  array in place and are proved against the `DeviceState` functions. Each
  method also states that no other record changes. Class `File` stands for
  an open file, and its `privateData` names the record it is bound to.
- `Ctl` (`ctl.dfy`): the client's argument decision and the value its
  `main` returns, as functions.

Arithmetic follows C. Assigning an `int` to the `uint8_t` field reduces it
modulo 256 (section 6.3.1.3 of ISO/IEC 9899), so after a successful read the
counter is `(old + step) mod 256`. A stored counter is never outside 0..255.

The read path tests for values above 255 and at or below -1. Neither test
can fire on a byte, so both are no-ops (`Normalise`). The sum
`counter_value + step` is an `int` addition. It overflows, which is undefined
in ISO C, only when the step exceeds `INT_MAX - 255`.
`WrappedSumSameByte` shows that the 32-bit two's complement wrap gives the
same stored byte. For that reason the model puts no bound on the step.

Each user-memory copy (`copy_to_user` / `copy_from_user`) is an input flag
that says whether it succeeded. For a write, the byte the copy leaves in the
driver's local variable is a second input.

Three consequences of the code are easy to miss:

- The read path wraps the counter when it stores it, not at the next read.
  The range tests before the next read find nothing to correct. From counter
  255 with step 10, two reads hand out 255 and then 9 (`WrapScenario`).
- A fault while copying a written byte from the caller is never reported.
  The write path tests the count of uncopied bytes with `< 0`, which never
  holds. A one-byte write therefore always returns 1 and stores whatever the
  copy left behind (`WriteDevice`).
- `counter_open` does not check the minor. The model requires
  `0 <= minor < num_devices`, the only minors the kernel routes to the
  driver.

## Model

| member | source | states |
|---|---|---|
| `DeviceState.ToUint8` | counter.c:37 | storing an `int` into the `uint8_t` counter yields the unique byte congruent to it modulo 256 |
| `DeviceState.Normalise` | counter.c:136-141 | the two range tests on the promoted counter leave every byte unchanged |
| `DeviceState.ReadDevice` | counter.c:130-156 | returns 1 exactly when length >= 1 and the copy succeeds; length 0 gives -EINVAL, a failed copy -EFAULT, both with the record unchanged and nothing delivered; success delivers the counter held before the call and leaves counter = (old + step) mod 256; the step never changes |
| `DeviceState.BytesNotCopied` | counter.c:168 | the copy-from-user result is 0 or 1 and is 0 exactly when the copy succeeds, so it is never negative |
| `DeviceState.WriteDevice` | counter.c:158-176 | returns 1 exactly when length is 1; any other length gives -EINVAL with the record unchanged; length 1 stores the byte and keeps the step, whether or not the copy faulted |
| `DeviceState.IoctlDevice` | counter.c:178-210 | RST returns 0 and restores counter 0, step 1; GET never changes the record and reports the counter exactly when delivery succeeds, otherwise -EFAULT; STP sets the step and keeps the counter when the copy succeeds, otherwise -EFAULT with no change; any other command is -ENOTTY with no change; only a successful GET reports a value |
| `DeviceState.Wrap32` | counter.c:152 | the 32-bit two's complement result of an `int` addition is congruent to the mathematical sum modulo 2^32 |
| `DeviceState.WrappedSumSameByte` | counter.c:152 | the stored byte is the same whether `counter_value + step` wraps at 32 bits or not |
| `DeviceState.Advanced` | counter.c:152 | the counter after i advances by s from v is the byte congruent to v + i*s |
| `DeviceState.RepeatedReads` | counter.c:130-156 | k successful reads hand out v, v+s, ..., v+(k-1)s modulo 256 and leave counter v+k*s modulo 256 with the step unchanged |
| `DeviceState.WriteThenGet` | counter.c:158-197 | a byte written is exactly what the next GET reports |
| `DeviceState.StepAppliesFromNextRead` | counter.c:198-204 | after STP the next read still hands out the current counter and advances it by the new step |
| `DeviceState.ReadsFromStartUp` | counter.c:86-87 | from counter 0, step 1, three reads hand out 0, 1, 2 and leave counter 3 |
| `DeviceState.StartUpScenario` | counter.c:130-204 | reads 0, 1, 2; after writing 250 reads 250, 251; after STP -5 reads 252, 247 |
| `DeviceState.WrapScenario` | counter.c:152 | from 255 with step 10 reads give 255 then 9; from 2 with step -5 they give 2 then 253 |
| `CounterDriver.Driver.constructor` | counter.c:42-87 | module load: the static array of MAX_DEVICES records is zero filled and the initialisation loop then gives every record below `num_devices` counter 0, step 1, before any file can be opened; the other records stay zero |
| `CounterDriver.Driver.Init` | counter.c:83-87 | afterwards every record below `num_devices` is counter 0, step 1 and every other record is unchanged |
| `CounterDriver.Driver.Open` | counter.c:120-124 | returns 0 and binds the file to the record of its minor |
| `CounterDriver.Driver.Release` | counter.c:126-128 | returns 0 and changes nothing |
| `CounterDriver.Driver.Read` | counter.c:130-156 | the bound record and the result follow `ReadDevice`; every other record is unchanged |
| `CounterDriver.Driver.Write` | counter.c:158-176 | the bound record and the result follow `WriteDevice`; every other record is unchanged |
| `CounterDriver.Driver.Ioctl` | counter.c:178-210 | the bound record, the result and the reported value follow `IoctlDevice`; every other record is unchanged |
| `CounterDriver.SharedRecord` | counter.c:120-123 | two files opened on one minor share its record: a byte written through one is what GET through the other reports |
| `Ctl.Select` | ctl.c:55-84 | with argc other than 3 or 4 the operation is usage; with 3 or 4, "rst", "get" and "err" select their operation regardless of a fourth argument; "stp" selects stp exactly when argc is 4 and the conversion set no errno, consumed the whole string and gave a value in [-128, 127], and then the argument is that value; every other case is usage with argument 0 |
| `Ctl.Main` | ctl.c:22-88 | the device is opened exactly when argc is 3 or 4; if it is not opened the operation is usage and `main` returns 1; a failed open returns 1 without running the operation; otherwise usage returns 1 and any other operation returns its control request's result |
| `Ctl.Request` | ctl.c:27-43 | usage sends no control request and every other operation sends one |
| `Ctl.RstResets` | ctl.c:27-29 | the request `rst` sends makes the driver return 0 and restore counter 0, step 1 |
| `Ctl.GetReports` | ctl.c:31-35 | the request `get` sends leaves the record unchanged and, when the copy succeeds, returns 0 and reports the counter |
| `Ctl.StpSetsStep` | ctl.c:37-39 | the request `stp` sends, when the copy succeeds, returns 0, sets the step to the carried value and keeps the counter |
| `Ctl.ErrIsRejected` | ctl.c:41-43 | the `err` operation's request is one the driver rejects with -ENOTTY, leaving the record unchanged |

## Left out

- Device registration and teardown: allocating the device-number region,
  creating the class, adding and deleting the character devices, creating
  the device nodes, the rollback loop when adding a device fails, and module
  exit (counter.c:59-82, 84-85, 89-118). This is kernel plumbing. Only the
  field resets of the initialisation loop are modelled.
- The module does not check `num_devices <= MAX_DEVICES`. The model requires
  it of the constructor.
- `counter_open` does not check the minor. `CounterDriver.Driver.Open`
  requires `0 <= minor < num_devices`, the only minors the kernel routes to
  the driver, instead of modelling an out-of-bounds access.
- The internals of `copy_to_user` and `copy_from_user`. Each copy is an input
  flag saying whether it succeeded.
- The bit encoding of command numbers by `_IO`, `_IOR` and `_IOW`. It is a
  Linux header macro and depends on `sizeof(uint8_t*)`. Commands are the
  datatype `Rst | Get | Stp | Other`.
- Logging with `pr_debug`, `pr_notice` and `pr_info`.
- Concurrency. The driver has no locking, so handles on one record race.
  The model runs every request alone and to completion.
- The size mismatch between the client and the driver. The client passes a
  1-byte `int8_t` while the driver copies an `int` of 4 bytes (ctl.c:32,
  ctl.c:38, counter.c:194, counter.c:199). This needs a memory model, so the
  step the driver receives is an independent input to `IoctlDevice`.
- In the client: the `open`, `ioctl`, `close` and `printf` calls, the
  conversion by `strtol` itself, and the narrowing of its `long` result to
  `int` (ctl.c:62). Their outcomes are inputs to `Ctl.Select` and `Ctl.Main`.
  The value printed by `get` is not modelled.
- `Ctl.Main` gives the value `main` returns, not the process exit status.
  The exit status is that value reduced modulo 256, so a failed control
  request returning -1 exits with 255.
