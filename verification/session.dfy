/** What a caller can rely on across a sequence of calls on one controller:
    identity never changes, only this channel's files are written, each call
    writes at most once, and the cached fields mirror the last successful
    write to each attribute file. */
module Session {
  import opened Base
  import Decimal
  import Sysfs
  import opened FileSystem
  import opened Pwm

  /** One call a caller makes on the controller. */
  datatype Command =
    | SetExportCmd(requested: bool)
    | SetPeriodCmd(period: u32)
    | SetStateCmd(state: PwmState)
    | WriteCmd(percentage: real)
    | SetDutyCycleCmd(dutyCycle: u32)

  /** A write addressed to this channel: the channel's number written to one
      of its chip's control files, or anything written to one of the
      channel's own attribute files. */
  predicate OwnWrite(p: Pwm, e: LogEntry) {
    match Sysfs.ParsePath(e.path)
    case Some(ControlFile(chip, _)) => chip == p.chip && e.payload == Decimal.ToDecimal(p.channel)
    case Some(AttributeFile(chip, channel, _)) => chip == p.chip && channel == p.channel
    case None => false
  }

  /** Every entry of `log` from position `from` on is one of `p`'s own writes. */
  predicate OwnWritesFrom(p: Pwm, log: seq<LogEntry>, from: nat) {
    forall i :: from <= i < |log| ==> OwnWrite(p, log[i])
  }

  /** Runs one command. The export command hands back the record it was given. */
  function Step(p: Pwm, fs: Fs, c: Command, ok: bool): (r: Result<(Pwm, Fs), PwmError>)
    ensures r.Ok? ==> r.value.0.chip == p.chip && r.value.0.channel == p.channel
    ensures r.Ok? ==> fs.log <= r.value.1.log && |r.value.1.log| <= |fs.log| + 1
    ensures r.Ok? ==> OwnWritesFrom(p, r.value.1.log, |fs.log|)
    ensures r.Ok? && !ok ==> r.value == (p, fs)
    ensures r.Err? ==> !ok && r.error.chip == p.chip && r.error.channel == p.channel
  {
    match c
    case SetExportCmd(requested) =>
      Sysfs.ParsePathOf(Sysfs.ControlFile(p.chip, Sysfs.Export));
      Sysfs.ParsePathOf(Sysfs.ControlFile(p.chip, Sysfs.Unexport));
      (match SetExport(p, fs, requested, ok)
       case Ok(fs') => Ok((p, fs'))
       case Err(e) => Err(e))
    case SetPeriodCmd(period) =>
      Sysfs.ParsePathOf(Sysfs.AttributeFile(p.chip, p.channel, Sysfs.Period));
      SetPeriod(p, fs, period, ok)
    case SetStateCmd(s) =>
      Sysfs.ParsePathOf(Sysfs.AttributeFile(p.chip, p.channel, Sysfs.Enable));
      SetState(p, fs, s, ok)
    case WriteCmd(percentage) =>
      Sysfs.ParsePathOf(Sysfs.AttributeFile(p.chip, p.channel, Sysfs.DutyCycle));
      Write(p, fs, percentage, ok)
    case SetDutyCycleCmd(d) =>
      Sysfs.ParsePathOf(Sysfs.AttributeFile(p.chip, p.channel, Sysfs.DutyCycle));
      SetDutyCycle(p, fs, d, ok)
  }

  /** Runs `cmds` in order, the i-th command's write succeeding exactly when
      `oks[i]` holds, and stops at the first error the way a caller chaining
      calls with `?` does. Returns the last good record and filesystem and
      the error, if any. */
  function Run(p: Pwm, fs: Fs, cmds: seq<Command>, oks: seq<bool>): (r: (Pwm, Fs, Option<PwmError>))
    requires |oks| == |cmds|
    ensures r.0.chip == p.chip && r.0.channel == p.channel
    ensures fs.log <= r.1.log && |r.1.log| <= |fs.log| + |cmds|
    ensures OwnWritesFrom(p, r.1.log, |fs.log|)
    ensures (forall i :: 0 <= i < |oks| ==> !oks[i]) ==> r.0 == p && r.1 == fs
    decreases |cmds|
  {
    if cmds == [] then (p, fs, None)
    else
      match Step(p, fs, cmds[0], oks[0])
      case Err(e) => (p, fs, Some(e))
      case Ok(next) =>
        var r := Run(next.0, next.1, cmds[1..], oks[1..]);
        assert OwnWritesFrom(next.0, r.1.log, |next.1.log|);
        r
  }

  // ----- the cache mirrors the log -----

  /** The payload of the last write to `path` in `log`, if any. */
  function LastPayload(log: seq<LogEntry>, path: string): Option<string>
    decreases |log|
  {
    if log == [] then None
    else if log[|log| - 1].path == path then Some(log[|log| - 1].payload)
    else LastPayload(log[..|log| - 1], path)
  }

  /** The text the cached value of attribute `a` would be written as. */
  function CachedPayload(p: Pwm, a: Sysfs.Attribute): string {
    match a
    case Period => Decimal.ToDecimal(p.period)
    case DutyCycle => Decimal.ToDecimal(p.dutyCycle)
    case Enable => StatePayload(p.state)
  }

  /** The cached value of `a` agrees with the last write to its file, if any. */
  predicate Mirrors(p: Pwm, fs: Fs, a: Sysfs.Attribute) {
    var last := LastPayload(fs.log, AttributePath(p, a));
    last.None? || last.value == CachedPayload(p, a)
  }

  predicate CacheMirrorsLog(p: Pwm, fs: Fs) {
    Mirrors(p, fs, Sysfs.Period) && Mirrors(p, fs, Sysfs.DutyCycle) && Mirrors(p, fs, Sysfs.Enable)
  }

  lemma LastPayloadAppend(log: seq<LogEntry>, e: LogEntry, path: string)
    ensures LastPayload(log + [e], path) == if e.path == path then Some(e.payload) else LastPayload(log, path)
  {
    assert (log + [e])[..|log|] == log;
  }

  /** Appending a write to a file other than `a`'s leaves `a` mirrored. */
  lemma MirrorsOtherWrite(p: Pwm, fs: Fs, node: Sysfs.Node, payload: string, a: Sysfs.Attribute)
    requires Mirrors(p, fs, a)
    requires node != Sysfs.AttributeFile(p.chip, p.channel, a)
    ensures forall dirs :: Mirrors(p, Fs(dirs, fs.log + [LogEntry(Sysfs.PathOf(node), payload)]), a)
  {
    Sysfs.PathOfInjective(node, Sysfs.AttributeFile(p.chip, p.channel, a));
    LastPayloadAppend(fs.log, LogEntry(Sysfs.PathOf(node), payload), AttributePath(p, a));
  }

  /** A write to attribute `a` carrying the new cached text mirrors `a`. */
  lemma MirrorsOwnWrite(p: Pwm, fs: Fs, a: Sysfs.Attribute)
    ensures Mirrors(p, Fs(fs.dirs, fs.log + [LogEntry(AttributePath(p, a), CachedPayload(p, a))]), a)
  {
    LastPayloadAppend(fs.log, LogEntry(AttributePath(p, a), CachedPayload(p, a)), AttributePath(p, a));
  }

  /** A new controller mirrors a log that holds no writes yet. */
  lemma NewMirrors(chip: u8, channel: u8, dirs: set<string>)
    ensures CacheMirrorsLog(New(chip, channel), Fs(dirs, []))
  {
  }

  /** Each successful step keeps every cached field equal to the last value
      written to its file. */
  lemma StepKeepsCacheMirrored(p: Pwm, fs: Fs, c: Command, ok: bool)
    requires CacheMirrorsLog(p, fs)
    requires Step(p, fs, c, ok).Ok?
    ensures var next := Step(p, fs, c, ok).value; CacheMirrorsLog(next.0, next.1)
  {
    var next := Step(p, fs, c, ok).value;
    if next.1.log != fs.log {
      assert ok;
      var e := next.1.log[|fs.log|];
      match c
      case SetExportCmd(requested) =>
        var k := if requested then Sysfs.Export else Sysfs.Unexport;
        var node := Sysfs.ControlFile(p.chip, k);
        assert next.1.log == fs.log + [LogEntry(Sysfs.PathOf(node), e.payload)];
        MirrorsOtherWrite(p, fs, node, e.payload, Sysfs.Period);
        MirrorsOtherWrite(p, fs, node, e.payload, Sysfs.DutyCycle);
        MirrorsOtherWrite(p, fs, node, e.payload, Sysfs.Enable);
      case SetPeriodCmd(_) =>
        AttributeStepMirrors(p, fs, next.0, Sysfs.Period);
      case SetStateCmd(_) =>
        AttributeStepMirrors(p, fs, next.0, Sysfs.Enable);
      case WriteCmd(_) =>
        AttributeStepMirrors(p, fs, next.0, Sysfs.DutyCycle);
      case SetDutyCycleCmd(_) =>
        AttributeStepMirrors(p, fs, next.0, Sysfs.DutyCycle);
    }
  }

  /** A step that writes attribute `a` and changes at most `a`'s cached field. */
  lemma AttributeStepMirrors(p: Pwm, fs: Fs, p': Pwm, a: Sysfs.Attribute)
    requires CacheMirrorsLog(p, fs)
    requires p'.chip == p.chip && p'.channel == p.channel
    requires a != Sysfs.Period ==> p'.period == p.period
    requires a != Sysfs.DutyCycle ==> p'.dutyCycle == p.dutyCycle
    requires a != Sysfs.Enable ==> p'.state == p.state
    ensures CacheMirrorsLog(p', Fs(fs.dirs, fs.log + [LogEntry(AttributePath(p, a), CachedPayload(p', a))]))
  {
    var payload := CachedPayload(p', a);
    var node := Sysfs.AttributeFile(p.chip, p.channel, a);
    MirrorsOwnWrite(p', fs, a);
    forall b: Sysfs.Attribute | b != a
      ensures Mirrors(p', Fs(fs.dirs, fs.log + [LogEntry(Sysfs.PathOf(node), payload)]), b)
    {
      assert Mirrors(p', fs, b);
      MirrorsOtherWrite(p', fs, node, payload, b);
    }
  }

  /** Over any run, the cached fields keep mirroring the log. */
  lemma {:induction false} RunKeepsCacheMirrored(p: Pwm, fs: Fs, cmds: seq<Command>, oks: seq<bool>)
    requires |oks| == |cmds|
    requires CacheMirrorsLog(p, fs)
    ensures var r := Run(p, fs, cmds, oks); CacheMirrorsLog(r.0, r.1)
    decreases |cmds|
  {
    if cmds != [] {
      var s := Step(p, fs, cmds[0], oks[0]);
      if s.Ok? {
        StepKeepsCacheMirrored(p, fs, cmds[0], oks[0]);
        RunKeepsCacheMirrored(s.value.0, s.value.1, cmds[1..], oks[1..]);
      }
    }
  }

  // ----- export and unexport across calls -----

  /** Exporting twice writes at most once: whatever the first call did, the
      second finds the channel directory and writes nothing. */
  lemma ExportIsIdempotent(p: Pwm, fs: Fs, ok1: bool, ok2: bool)
    requires SetExport(p, fs, true, ok1).Ok?
    ensures var fs1 := SetExport(p, fs, true, ok1).value;
      SetExport(p, fs1, true, ok2) == Ok(fs1) && |fs1.log| <= |fs.log| + 1
  {
  }

  /** Unexporting twice writes at most once. */
  lemma UnexportIsIdempotent(p: Pwm, fs: Fs, ok1: bool, ok2: bool)
    requires SetExport(p, fs, false, ok1).Ok?
    ensures var fs1 := SetExport(p, fs, false, ok1).value;
      SetExport(p, fs1, false, ok2) == Ok(fs1) && |fs1.log| <= |fs.log| + 1
  {
  }

  /** Exporting a channel that was not exported and then unexporting it
      leaves the directory tree as it was, after exactly two writes of the
      channel number: to export, then to unexport. */
  lemma ExportThenUnexport(p: Pwm, fs: Fs)
    requires !Exists(fs, Sysfs.ChannelDir(p.chip, p.channel))
    ensures SetExport(p, fs, true, true).Ok?
    ensures var fs1 := SetExport(p, fs, true, true).value;
      var r := SetExport(p, fs1, false, true);
      && r.Ok?
      && r.value.dirs == fs.dirs
      && r.value.log == fs.log + [LogEntry(ControlPath(p, Sysfs.Export), Decimal.ToDecimal(p.channel)),
                                  LogEntry(ControlPath(p, Sysfs.Unexport), Decimal.ToDecimal(p.channel))]
  {
    var fs1 := SetExport(p, fs, true, true).value;
    assert fs1.dirs - {Sysfs.ChannelDir(p.chip, p.channel)} == fs.dirs;
  }

  // ----- duty cycle by percentage -----

  /** Setting the duty cycle by percentage is setting it in nanoseconds to
      the value computed from the cached period, differing only in the
      operation an error names. */
  lemma WriteIsSetDutyCycle(p: Pwm, fs: Fs, percentage: real, ok: bool)
    ensures var d := DutyFromPercentage(percentage, p.period);
      && (ok ==> Write(p, fs, percentage, ok) == SetDutyCycle(p, fs, d, ok))
      && (!ok ==> Write(p, fs, percentage, ok).error.operation == DutyCyclePercentOp
                  && SetDutyCycle(p, fs, d, ok).error.operation == DutyCycleOp)
  {
  }

  /** Before any period is set, every percentage yields a zero duty cycle,
      and the write is attempted like any other. */
  lemma WriteBeforePeriodIsZero(chip: u8, channel: u8, fs: Fs, percentage: real)
    ensures var r := Write(New(chip, channel), fs, percentage, true);
      r.Ok? && r.value.0.dutyCycle == 0 && r.value.1.log[|fs.log|].payload == "0"
  {
  }

  // ----- the documented scenario -----

  lemma DecimalOf500000()
    ensures Decimal.ToDecimal(500000) == "500000"
  {
    assert Decimal.ToDecimal(5) == "5";
    assert Decimal.ToDecimal(50) == "50";
    assert Decimal.ToDecimal(500) == "500";
    assert Decimal.ToDecimal(5000) == "5000";
    assert Decimal.ToDecimal(50000) == "50000";
  }

  lemma DecimalOf250000()
    ensures Decimal.ToDecimal(250000) == "250000"
  {
    assert Decimal.ToDecimal(2) == "2";
    assert Decimal.ToDecimal(25) == "25";
    assert Decimal.ToDecimal(250) == "250";
    assert Decimal.ToDecimal(2500) == "2500";
    assert Decimal.ToDecimal(25000) == "25000";
  }

  const Chip0Pwm0Dir: string := "/sys/class/pwm/pwmchip0/pwm0"

  /** The literal sysfs paths of channel 0 of chip 0. */
  lemma ExamplePaths(p: Pwm)
    requires p.chip == 0 && p.channel == 0
    ensures Decimal.ToDecimal(p.channel) == "0"
    ensures Sysfs.ChannelDir(p.chip, p.channel) == Chip0Pwm0Dir
    ensures ControlPath(p, Sysfs.Export) == "/sys/class/pwm/pwmchip0/export"
    ensures AttributePath(p, Sysfs.Period) == "/sys/class/pwm/pwmchip0/pwm0/period"
    ensures AttributePath(p, Sysfs.Enable) == "/sys/class/pwm/pwmchip0/pwm0/enable"
    ensures AttributePath(p, Sysfs.DutyCycle) == "/sys/class/pwm/pwmchip0/pwm0/duty_cycle"
  {
    assert Decimal.ToDecimal(0) == "0";
  }

  lemma ExampleExport(dirs: set<string>)
    requires Chip0Pwm0Dir !in dirs
    ensures Step(New(0, 0), Fs(dirs, []), SetExportCmd(true), true)
         == Ok((New(0, 0), Fs(dirs + {Chip0Pwm0Dir}, [LogEntry("/sys/class/pwm/pwmchip0/export", "0")])))
  {
    var p0 := New(0, 0);
    ExamplePaths(p0);
    var e := LogEntry("/sys/class/pwm/pwmchip0/export", "0");
    assert [] + [e] == [e];
  }

  lemma ExamplePeriod(p: Pwm, fs: Fs)
    requires p.chip == 0 && p.channel == 0
    ensures Step(p, fs, SetPeriodCmd(500000), true)
         == Ok((p.(period := 500000), Fs(fs.dirs, fs.log + [LogEntry("/sys/class/pwm/pwmchip0/pwm0/period", "500000")])))
  {
    ExamplePaths(p);
    DecimalOf500000();
  }

  lemma ExampleEnable(p: Pwm, fs: Fs)
    requires p.chip == 0 && p.channel == 0
    ensures Step(p, fs, SetStateCmd(Enabled), true)
         == Ok((p.(state := Enabled), Fs(fs.dirs, fs.log + [LogEntry("/sys/class/pwm/pwmchip0/pwm0/enable", "1")])))
  {
    ExamplePaths(p);
  }

  lemma ExampleHalfDuty(p: Pwm, fs: Fs)
    requires p.chip == 0 && p.channel == 0 && p.period == 500000
    ensures Step(p, fs, WriteCmd(50.0), true)
         == Ok((p.(dutyCycle := 250000), Fs(fs.dirs, fs.log + [LogEntry("/sys/class/pwm/pwmchip0/pwm0/duty_cycle", "250000")])))
  {
    ExamplePaths(p);
    assert DutyFromPercentage(50.0, 500000) == 250000;
    DecimalOf250000();
  }

  /** Chip 0, channel 0: export, a 500000 ns period, enable, then 50% duty
      cycle, each write succeeding, on a tree where the channel is not yet
      exported. The final record is period 500000, duty cycle 250000,
      enabled, and exactly four writes were made, in call order, with these
      literal paths and payloads. */
  lemma ExampleSession(dirs: set<string>)
    requires Chip0Pwm0Dir !in dirs
    ensures Run(New(0, 0), Fs(dirs, []),
                [SetExportCmd(true), SetPeriodCmd(500000), SetStateCmd(Enabled), WriteCmd(50.0)],
                [true, true, true, true])
         == (Pwm(0, 0, 500000, 250000, Enabled),
             Fs(dirs + {Chip0Pwm0Dir},
                [LogEntry("/sys/class/pwm/pwmchip0/export", "0"),
                 LogEntry("/sys/class/pwm/pwmchip0/pwm0/period", "500000"),
                 LogEntry("/sys/class/pwm/pwmchip0/pwm0/enable", "1"),
                 LogEntry("/sys/class/pwm/pwmchip0/pwm0/duty_cycle", "250000")]),
             None)
  {
    var cmds := [SetExportCmd(true), SetPeriodCmd(500000), SetStateCmd(Enabled), WriteCmd(50.0)];
    var oks := [true, true, true, true];
    var p1 := New(0, 0);
    var fs1 := Fs(dirs + {Chip0Pwm0Dir}, [LogEntry("/sys/class/pwm/pwmchip0/export", "0")]);
    ExampleExport(dirs);
    var p2 := p1.(period := 500000);
    var fs2 := Fs(fs1.dirs, fs1.log + [LogEntry("/sys/class/pwm/pwmchip0/pwm0/period", "500000")]);
    ExamplePeriod(p1, fs1);
    var p3 := p2.(state := Enabled);
    var fs3 := Fs(fs1.dirs, fs2.log + [LogEntry("/sys/class/pwm/pwmchip0/pwm0/enable", "1")]);
    ExampleEnable(p2, fs2);
    var p4 := p3.(dutyCycle := 250000);
    var fs4 := Fs(fs1.dirs, fs3.log + [LogEntry("/sys/class/pwm/pwmchip0/pwm0/duty_cycle", "250000")]);
    ExampleHalfDuty(p3, fs3);
    assert Run(p3, fs3, cmds[3..], oks[3..]) == (p4, fs4, None);
    assert Run(p2, fs2, cmds[2..], oks[2..]) == (p4, fs4, None);
    assert Run(p1, fs1, cmds[1..], oks[1..]) == (p4, fs4, None);
    assert Run(p1, Fs(dirs, []), cmds, oks) == Run(p1, fs1, cmds[1..], oks[1..]);
    assert p4 == Pwm(0, 0, 500000, 250000, Enabled);
    assert fs4.log == [LogEntry("/sys/class/pwm/pwmchip0/export", "0"),
                       LogEntry("/sys/class/pwm/pwmchip0/pwm0/period", "500000"),
                       LogEntry("/sys/class/pwm/pwmchip0/pwm0/enable", "1"),
                       LogEntry("/sys/class/pwm/pwmchip0/pwm0/duty_cycle", "250000")];
  }
}
