/** One PWM channel of one PWM chip, driven through sysfs. The record caches
    the last period, duty cycle and enable state this process wrote
    successfully; every setter is a pure step over `(Pwm, Fs)` that takes
    the outcome of its single write as the oracle `ok`. */
module Pwm {
  import opened Base
  import Decimal
  import Sysfs
  import opened FileSystem

  /** Whether the output is switched on. */
  datatype PwmState = Enabled | Disabled

  datatype Pwm = Pwm(chip: u8, channel: u8, period: u32, dutyCycle: u32, state: PwmState)

  /** The operation an error came from. */
  datatype Operation = ExportOp | UnexportOp | PeriodOp | StateOp | DutyCyclePercentOp | DutyCycleOp

  /** A failed write, tagged with what was attempted and on which channel. */
  datatype PwmError = PwmError(operation: Operation, chip: u8, channel: u8)

  function ControlPath(p: Pwm, k: Sysfs.Control): string {
    Sysfs.PathOf(Sysfs.ControlFile(p.chip, k))
  }

  function AttributePath(p: Pwm, a: Sysfs.Attribute): string {
    Sysfs.PathOf(Sysfs.AttributeFile(p.chip, p.channel, a))
  }

  /** The text written to the enable file. */
  function StatePayload(s: PwmState): string {
    match s
    case Enabled => "1"
    case Disabled => "0"
  }

  /** A new controller for channel `channel` of chip `chip`: nothing
      configured yet, output off. It takes no filesystem, so it performs no
      I/O. */
  function New(chip: u8, channel: u8): (p: Pwm)
    ensures p.chip == chip && p.channel == channel
    ensures p.period == 0 && p.dutyCycle == 0 && p.state == Disabled
  {
    Pwm(chip, channel, 0, 0, Disabled)
  }

  /** Export (`requested`) or unexport the channel. The write is skipped when
      the channel directory already says the channel is in the requested
      state. Only the filesystem is returned: the record is never changed. */
  function SetExport(p: Pwm, fs: Fs, requested: bool, ok: bool): (r: Result<Fs, PwmError>)
    ensures requested == Exists(fs, Sysfs.ChannelDir(p.chip, p.channel)) ==> r == Ok(fs)
    ensures requested && !Exists(fs, Sysfs.ChannelDir(p.chip, p.channel)) ==>
      if ok then r == Ok(Fs(fs.dirs + {Sysfs.ChannelDir(p.chip, p.channel)},
                            fs.log + [LogEntry(ControlPath(p, Sysfs.Export), Decimal.ToDecimal(p.channel))]))
      else r == Err(PwmError(ExportOp, p.chip, p.channel))
    ensures !requested && Exists(fs, Sysfs.ChannelDir(p.chip, p.channel)) ==>
      if ok then r == Ok(Fs(fs.dirs - {Sysfs.ChannelDir(p.chip, p.channel)},
                            fs.log + [LogEntry(ControlPath(p, Sysfs.Unexport), Decimal.ToDecimal(p.channel))]))
      else r == Err(PwmError(UnexportOp, p.chip, p.channel))
  {
    var dir := Sysfs.ChannelDir(p.chip, p.channel);
    if requested && !Exists(fs, dir) then
      WriteControl(p, fs, Sysfs.Export, ok, ExportOp)
    else if !requested && Exists(fs, dir) then
      WriteControl(p, fs, Sysfs.Unexport, ok, UnexportOp)
    else
      Ok(fs)
  }

  /** Writes the channel number to one of the chip's control files. */
  function WriteControl(p: Pwm, fs: Fs, k: Sysfs.Control, ok: bool, op: Operation): (r: Result<Fs, PwmError>)
    ensures ok ==> r.Ok? && r.value.log == fs.log + [LogEntry(ControlPath(p, k), Decimal.ToDecimal(p.channel))]
    ensures ok ==> r.value.dirs == var dir := Sysfs.ChannelDir(p.chip, p.channel);
      if k == Sysfs.Export then fs.dirs + {dir} else fs.dirs - {dir}
    ensures !ok ==> r == Err(PwmError(op, p.chip, p.channel))
  {
    Sysfs.KernelReactControl(fs.dirs, p.chip, k, p.channel);
    match WriteFile(fs, ControlPath(p, k), Decimal.ToDecimal(p.channel), ok)
    case Some(fs') => Ok(fs')
    case None => Err(PwmError(op, p.chip, p.channel))
  }

  /** Writes `payload` to one of the channel's attribute files. */
  function WriteAttribute(p: Pwm, fs: Fs, a: Sysfs.Attribute, payload: string, ok: bool): (r: Option<Fs>)
    ensures r.Some? <==> ok
    ensures ok ==> r.value == Fs(fs.dirs, fs.log + [LogEntry(AttributePath(p, a), payload)])
  {
    Sysfs.KernelReactAttribute(fs.dirs, p.chip, p.channel, a, payload);
    WriteFile(fs, AttributePath(p, a), payload, ok)
  }

  /** Sets the period: the decimal nanoseconds go to the period file, and
      only once that write succeeds does the cached period change. */
  function SetPeriod(p: Pwm, fs: Fs, period: u32, ok: bool): (r: Result<(Pwm, Fs), PwmError>)
    ensures ok ==> r == Ok((p.(period := period),
                            Fs(fs.dirs, fs.log + [LogEntry(AttributePath(p, Sysfs.Period), Decimal.ToDecimal(period))])))
    ensures !ok ==> r == Err(PwmError(PeriodOp, p.chip, p.channel))
  {
    match WriteAttribute(p, fs, Sysfs.Period, Decimal.ToDecimal(period), ok)
    case Some(fs') => Ok((p.(period := period), fs'))
    case None => Err(PwmError(PeriodOp, p.chip, p.channel))
  }

  /** Switches the output on ("1") or off ("0"); the cached state follows a
      successful write only. */
  function SetState(p: Pwm, fs: Fs, s: PwmState, ok: bool): (r: Result<(Pwm, Fs), PwmError>)
    ensures ok ==> r == Ok((p.(state := s),
                            Fs(fs.dirs, fs.log + [LogEntry(AttributePath(p, Sysfs.Enable), if s == Enabled then "1" else "0")])))
    ensures !ok ==> r == Err(PwmError(StateOp, p.chip, p.channel))
  {
    match WriteAttribute(p, fs, Sysfs.Enable, StatePayload(s), ok)
    case Some(fs') => Ok((p.(state := s), fs'))
    case None => Err(PwmError(StateOp, p.chip, p.channel))
  }

  /** The duty cycle `percentage` percent of `period` stands for: the product
      truncated toward zero and saturated to the `u32` range, as Rust's
      float-to-integer `as u32` cast does. */
  function DutyFromPercentage(percentage: real, period: u32): (d: u32)
    ensures period == 0 || percentage <= 0.0 ==> d == 0
    ensures 0.0 <= percentage <= 100.0 ==> d <= period
    ensures var exact := percentage / 100.0 * period as real;
      0.0 <= exact < U32Max as real ==> d as real <= exact < d as real + 1.0
    ensures var exact := percentage / 100.0 * period as real;
      exact >= U32Max as real ==> d == U32Max
  {
    var exact := percentage / 100.0 * period as real;
    if exact <= 0.0 then 0
    else if exact >= U32Max as real then
      PercentageBound(percentage, period);
      U32Max
    else
      PercentageBound(percentage, period);
      exact.Floor
  }

  lemma PercentageBound(percentage: real, period: u32)
    ensures period == 0 ==> percentage / 100.0 * period as real == 0.0
    ensures 0.0 <= percentage <= 100.0 ==> percentage / 100.0 * period as real <= period as real
    ensures 0.0 <= percentage <= 100.0 ==> (percentage / 100.0 * period as real).Floor <= period
  {
    if 0.0 <= percentage <= 100.0 {
      var f := percentage / 100.0;
      var exact := f * period as real;
      assert f <= 1.0;
      assert exact <= 1.0 * period as real;
      assert exact.Floor as real <= exact;
    }
  }

  /** Sets the duty cycle as a percentage of the cached period (`write` in
      the source): the computed nanoseconds go to the duty_cycle file, and
      only a successful write updates the cached duty cycle. */
  function Write(p: Pwm, fs: Fs, percentage: real, ok: bool): (r: Result<(Pwm, Fs), PwmError>)
    ensures var d := DutyFromPercentage(percentage, p.period);
      ok ==> r == Ok((p.(dutyCycle := d),
                      Fs(fs.dirs, fs.log + [LogEntry(AttributePath(p, Sysfs.DutyCycle), Decimal.ToDecimal(d))])))
    ensures !ok ==> r == Err(PwmError(DutyCyclePercentOp, p.chip, p.channel))
  {
    var d := DutyFromPercentage(percentage, p.period);
    match WriteAttribute(p, fs, Sysfs.DutyCycle, Decimal.ToDecimal(d), ok)
    case Some(fs') => Ok((p.(dutyCycle := d), fs'))
    case None => Err(PwmError(DutyCyclePercentOp, p.chip, p.channel))
  }

  /** Sets the duty cycle in nanoseconds. Nothing relates `dutyCycle` to the
      cached period: a duty cycle longer than the period is written as is. */
  function SetDutyCycle(p: Pwm, fs: Fs, dutyCycle: u32, ok: bool): (r: Result<(Pwm, Fs), PwmError>)
    ensures ok ==> r == Ok((p.(dutyCycle := dutyCycle),
                            Fs(fs.dirs, fs.log + [LogEntry(AttributePath(p, Sysfs.DutyCycle), Decimal.ToDecimal(dutyCycle))])))
    ensures !ok ==> r == Err(PwmError(DutyCycleOp, p.chip, p.channel))
  {
    match WriteAttribute(p, fs, Sysfs.DutyCycle, Decimal.ToDecimal(dutyCycle), ok)
    case Some(fs') => Ok((p.(dutyCycle := dutyCycle), fs'))
    case None => Err(PwmError(DutyCycleOp, p.chip, p.channel))
  }
}
