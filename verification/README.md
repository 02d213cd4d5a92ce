# PWM channel controller over Linux sysfs

This project models `PWM`, the controller in `libbeaglebone` for one channel
of one PWM chip. The controller drives the Linux PWM sysfs interface:

- It exports or unexports the channel by writing its number to
  `/sys/class/pwm/pwmchipC/export` or `.../unexport`.
- It sets `period`, `duty_cycle` and `enable` under `/sys/class/pwm/pwmchipC/pwmN/`.
- It caches the last period, duty cycle and enable state it wrote successfully.

The filesystem is abstract. It is a set of existing directories plus a log of
`(path, payload)` writes. Each write takes a boolean oracle `ok` that says
whether the write succeeds. Every operation is a pure step over `(Pwm, Fs)`.

Modules, one per concern:

- `Base` (`base.dfy`): the `u8`/`u32` ranges, `Option` and `Result`.
- `Decimal` (`decimal.dfy`): the decimal text that Rust's `format!("{}", n)` and
  `to_string()` produce. It includes a parser that is proved to be its inverse,
  and an alternative digit-by-digit rendering proved equal to the recursive definition.
- `Sysfs` (`sysfs.dfy`): the path layout, a path parser proved to be the exact
  inverse of path construction (so distinct files have distinct paths), and
  `KernelReact`. `KernelReact` models how the kernel answers a write: writing a
  channel number to `export` creates `pwmN/`, writing it to `unexport` removes
  it, and other writes leave the tree alone.
- `FileSystem` (`filesystem.dfy`): the abstract state and the single write
  primitive (`util::write_file`, `File::create` + `write_all`).
- `Pwm` (`pwm.dfy`): the `PWM` record and its operations `New`, `SetExport`,
  `SetPeriod`, `SetState`, `Write` and `SetDutyCycle`.
- `Session` (`session.dfy`): properties across calls. These cover the caller's
  `?`-chained sequence of commands, the invariant that the cached fields mirror
  the last write to each file, idempotent export and unexport, and the
  documented chip-0/channel-0 scenario.

Two behaviours worth noting, as the code has them:

- A negative percentage passed to `write` does not reach the kernel as a
  negative number. Rust's float-to-`u32` `as` cast saturates it to 0, so `0` is
  written (`Pwm.DutyFromPercentage`).
- The export, period, enable and 50% duty-cycle scenario makes exactly four
  writes (`Session.ExampleSession`).

## Model

| member | source | states |
|---|---|---|
| Pwm.New | src/pwm.rs:44-52 | The new record has the given chip and channel, period 0, duty cycle 0 and state `Disabled`. It takes no filesystem, so it does no I/O. |
| Pwm.SetExport | src/pwm.rs:67-94 | No write happens when the channel directory already matches the request; the result is `Ok` with the filesystem unchanged. Otherwise exactly one write of the channel's decimal number goes to the chip's `export` or `unexport` file, and the directory is created or removed. A failed write gives an error tagged with the operation and channel and changes nothing. Only a filesystem is returned, so the record never changes. |
| Pwm.SetPeriod | src/pwm.rs:112-125 | When the write succeeds, exactly one write of decimal `period` goes to `.../pwmN/period`, the cached period becomes `period`, and every other field and the directory tree stay the same. When it fails, the result is a period error and nothing changes. |
| Pwm.SetState | src/pwm.rs:146-163 | `Enabled` writes `"1"` and `Disabled` writes `"0"` to `.../pwmN/enable`. The cached state changes to `s` only on success, and only that field changes. A failed write gives a state error. |
| Pwm.DutyFromPercentage | src/pwm.rs:191 | The duty cycle is 0 when the period is 0 or the percentage is not positive. It is at most the period when the percentage is within [0, 100]. Inside the `u32` range it is the exact product truncated toward zero, and a product of at least `u32::MAX` saturates to `u32::MAX`. |
| Pwm.Write | src/pwm.rs:187-202 | The duty cycle is computed from the cached period. It is written in decimal to `.../pwmN/duty_cycle`, and the cached duty cycle takes that value only on success. Period and state never change. A failure is tagged as the percentage form. |
| Pwm.SetDutyCycle | src/pwm.rs:226-239 | Decimal `dutyCycle` is written to `.../pwmN/duty_cycle` without comparing it to the cached period, so a value above the period is accepted. The cached duty cycle changes only on success, and period and state are left alone. |
| Decimal.ToDecimal | src/pwm.rs:74 | An index or nanosecond count is rendered as non-empty digits with no leading zero unless the value is zero. |
| Decimal.ParseDecimalIff | src/pwm.rs:116 | A string parses to `n` exactly when it is the decimal rendering of `n`. Both directions are proved, so the payload determines the value. |
| Decimal.ToDecimalInjective | src/pwm.rs:230 | Different values always produce different payloads. |
| Decimal.FormatDecimal | src/pwm.rs:192 | An alternative rendering that builds the digits least significant first agrees with the reference rendering on every input. |
| Sysfs.ChannelDir | src/pwm.rs:68-70 | The channel directory `pwmN` lies inside the chip directory `/sys/class/pwm/pwmchipC`, as a single entry with no further `/`. |
| Sysfs.ChannelDirInjective | src/pwm.rs:83 | Different (chip, channel) pairs have different channel directories, so the existence test for one channel never answers for another. |
| Sysfs.PathOf | src/pwm.rs:188-190 | The export and unexport files lie in the chip's directory, and the `period`, `enable` and `duty_cycle` files lie in the channel's directory. |
| FileSystem.WriteFile | src/pwm.rs:72-79 | Writing a whole payload succeeds exactly when the oracle says so. On success, exactly that `(path, payload)` entry is appended to the log. On failure the filesystem is not returned, so nothing changes. |
| Sysfs.ParsePathOf | src/pwm.rs:68-72 | Every export, unexport and attribute path the controller builds parses back to the same chip, channel and file. |
| Sysfs.PathOfParse | src/pwm.rs:113-115 | Any path that parses as a controller file is exactly the path built for that file. |
| Sysfs.PathOfInjective | src/pwm.rs:147-149 | Two different controller files never share a path, for example a period file and an enable file, two channels, or two chips. |
| Sysfs.KernelReactControl | src/pwm.rs:81-83 | A successful write of channel N to a chip's export file creates `pwmN`, and one to the unexport file removes it. This is the existence change that `set_export` later checks. |
| Session.Step | src/pwm.rs:112-239 | A step keeps chip and channel. It makes at most one write and only appends to the log. Every write goes to this channel's own files. A step whose write fails leaves the record and filesystem untouched, and every error names this channel. |
| Session.Run | src/pwm.rs:20-26 | Over any command sequence that stops at the first error, chip and channel never change. The log only grows, by at most one write per command, and only with this channel's writes. When every write fails, nothing changes. |
| Session.NewMirrors | src/pwm.rs:44-52 | A freshly built controller satisfies the cache-mirrors-log invariant over a log that holds no writes yet. |
| Session.StepKeepsCacheMirrored | src/pwm.rs:230-237 | After each successful step, every cached field equals the payload of the last write to its file. |
| Session.RunKeepsCacheMirrored | src/pwm.rs:116-123 | The cached fields keep mirroring the log across any sequence of calls. |
| Session.ExportIsIdempotent | src/pwm.rs:71-80 | Exporting twice in a row writes at most once, and the second call changes nothing whatever its write outcome. |
| Session.UnexportIsIdempotent | src/pwm.rs:83-92 | Unexporting twice in a row writes at most once. |
| Session.ExportThenUnexport | src/pwm.rs:67-94 | Exporting a channel that is not exported and then unexporting it restores the directory tree. It takes exactly two writes of the channel number: to export, then to unexport. |
| Session.WriteIsSetDutyCycle | src/pwm.rs:187-200 | On success, `write(pct)` is the same as `set_duty_cycle` with the value computed from the cached period. On failure the two differ only in the operation the error names. |
| Session.WriteBeforePeriodIsZero | src/pwm.rs:191 | Before any period is set, every percentage writes `"0"`, and the call succeeds when the write does. |
| Session.ExampleSession | src/pwm.rs:176-185 | The sequence chip 0, channel 0: export, period 500000, enable, then 50% ends as period 500000, duty cycle 250000, enabled. It makes exactly four writes, in order: `export` "0", `period` "500000", `enable` "1", `duty_cycle` "250000". |

## Left out

- Real I/O is abstracted. `File::create`, `write_all`, `PathBuf::exists` and `util::write_file` become the abstract `Fs` state and the success oracle. `util::write_file` is not part of this model beyond "write the whole payload or fail".
- `set_export` can fail at `File::create` or at `write_all`. Both are one oracle outcome with the same error, since neither changes the cached record.
- The error type carries only the operation and the channel. The `error_chain` message strings and the wrapped OS error are left out.
- Pwm.DutyFromPercentage: computes `(percentage / 100) * period` in exact real arithmetic, not in `f32`. The model does not follow `f32` rounding of `percentage / 100.0`, of `period as f32` or of the product. That rounding can change the result by 1 ns even at small periods. For example, `write(0.07)` with period 20000 truncates 13.999999… to 13 in `f32`, where the exact product gives 14. Periods above 2^24, which `as f32` cannot represent exactly, and NaN inputs (which the cast maps to 0) are not modelled either.
- Kernel-side validation is not modelled. This includes rejecting a duty cycle above the period, or any write to a channel that is not exported; those are oracle failures. Concurrent or cross-process use of the same sysfs nodes is also left out.
- The pin-muxing precondition (`config-pin`) and the `Debug`/`PartialEq` derives have no behaviour to model.
