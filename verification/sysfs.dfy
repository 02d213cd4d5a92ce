/** The Linux PWM sysfs layout the controller talks to, and the kernel's
    answer to writes into it.

    For chip `C` and channel `N` (both rendered in decimal):
      /sys/class/pwm/pwmchipC/export        write N to create pwmN
      /sys/class/pwm/pwmchipC/unexport      write N to remove pwmN
      /sys/class/pwm/pwmchipC/pwmN/period, duty_cycle, enable
*/
module Sysfs {
  import opened Base
  import Decimal

  const ClassRoot: string := "/sys/class/pwm/pwmchip"

  /** The chip-level control files. */
  datatype Control = Export | Unexport

  /** The per-channel attribute files the controller writes. */
  datatype Attribute = Period | DutyCycle | Enable

  /** A file the controller writes to. */
  datatype Node =
    | ControlFile(chip: u8, control: Control)
    | AttributeFile(chip: u8, channel: u8, attribute: Attribute)

  function ControlName(k: Control): string {
    match k
    case Export => "export"
    case Unexport => "unexport"
  }

  function AttributeName(a: Attribute): string {
    match a
    case Period => "period"
    case DutyCycle => "duty_cycle"
    case Enable => "enable"
  }

  function ChipDir(chip: u8): string {
    ClassRoot + Decimal.ToDecimal(chip)
  }

  /** The directory whose existence means the channel is exported: a single
      entry, named after the channel, directly inside the chip's directory. */
  function ChannelDir(chip: u8, channel: u8): (dir: string)
    ensures ChipDir(chip) + "/" <= dir
    ensures '/' !in dir[|ChipDir(chip)| + 1..]
  {
    NoSlashInDecimal(channel);
    var dir := ChipDir(chip) + "/pwm" + Decimal.ToDecimal(channel);
    assert dir[|ChipDir(chip)| + 1..] == "pwm" + Decimal.ToDecimal(channel);
    dir
  }

  /** The path of a controller file: control files sit in the chip's
      directory, attribute files in the channel's. */
  function PathOf(node: Node): (path: string)
    ensures node.ControlFile? ==> ChipDir(node.chip) + "/" <= path
    ensures node.AttributeFile? ==> ChannelDir(node.chip, node.channel) + "/" <= path
  {
    match node
    case ControlFile(chip, k) => ChipDir(chip) + "/" + ControlName(k)
    case AttributeFile(chip, channel, a) => ChannelDir(chip, channel) + "/" + AttributeName(a)
  }

  // ----- reading paths back -----

  function ParseControl(s: string): Option<Control> {
    if s == "export" then Some(Export)
    else if s == "unexport" then Some(Unexport)
    else None
  }

  function ParseAttribute(s: string): Option<Attribute> {
    if s == "period" then Some(Period)
    else if s == "duty_cycle" then Some(DutyCycle)
    else if s == "enable" then Some(Enable)
    else None
  }

  /** A decimal index that fits in a `u8`. */
  function ParseIndex(s: string): Option<u8> {
    match Decimal.ParseDecimal(s)
    case Some(v) => if v < 0x100 then Some(v) else None
    case None => None
  }

  /** Splits `s` at the first occurrence of `sep`. */
  function SplitAtFirst(s: string, sep: char): Option<(string, string)>
    decreases |s|
  {
    if s == [] then None
    else if s[0] == sep then Some(([], s[1..]))
    else match SplitAtFirst(s[1..], sep)
      case None => None
      case Some(parts) => Some(([s[0]] + parts.0, parts.1))
  }

  /** Which controller file, if any, a path names. */
  function ParsePath(p: string): Option<Node> {
    if |p| < |ClassRoot| || p[..|ClassRoot|] != ClassRoot then None
    else ParseChipEntry(p[|ClassRoot|..])
  }

  /** Reads `C/rest` below the class root. */
  function ParseChipEntry(s: string): Option<Node> {
    match SplitAtFirst(s, '/')
    case None => None
    case Some(parts) =>
      match ParseIndex(parts.0)
      case None => None
      case Some(chip) => ParseChipFile(chip, parts.1)
  }

  /** Reads a file name inside chip `chip`'s directory. */
  function ParseChipFile(chip: u8, file: string): Option<Node> {
    match ParseControl(file)
    case Some(k) => Some(ControlFile(chip, k))
    case None =>
      if |file| < 3 || file[..3] != "pwm" then None
      else ParseChannelFile(chip, file[3..])
  }

  /** Reads `N/attribute` following a `pwm` prefix. */
  function ParseChannelFile(chip: u8, s: string): Option<Node> {
    match SplitAtFirst(s, '/')
    case None => None
    case Some(parts) =>
      match (ParseIndex(parts.0), ParseAttribute(parts.1))
      case (Some(channel), Some(a)) => Some(AttributeFile(chip, channel, a))
      case _ => None
  }

  lemma {:induction false} SplitAtFirstOf(a: string, sep: char, b: string)
    requires sep !in a
    ensures SplitAtFirst(a + [sep] + b, sep) == Some((a, b))
    decreases |a|
  {
    var s := a + [sep] + b;
    if a != [] {
      assert s[0] == a[0] && a[0] != sep;
      assert s[1..] == a[1..] + [sep] + b;
      SplitAtFirstOf(a[1..], sep, b);
      assert [a[0]] + a[1..] == a;
    } else {
      assert s[1..] == b;
    }
  }

  lemma {:induction false} SplitAtFirstParts(s: string, sep: char)
    requires SplitAtFirst(s, sep).Some?
    ensures var parts := SplitAtFirst(s, sep).value;
      sep !in parts.0 && s == parts.0 + [sep] + parts.1
    decreases |s|
  {
    if s[0] != sep {
      SplitAtFirstParts(s[1..], sep);
    }
  }

  lemma ParseIndexOf(n: u8)
    ensures ParseIndex(Decimal.ToDecimal(n)) == Some(n)
  {
    Decimal.ParseToDecimal(n);
  }

  lemma ParseIndexParts(s: string)
    requires ParseIndex(s).Some?
    ensures s == Decimal.ToDecimal(ParseIndex(s).value)
  {
    Decimal.ParseDecimalIff(s, ParseIndex(s).value);
  }

  lemma NoSlashInDecimal(n: nat)
    ensures '/' !in Decimal.ToDecimal(n)
  {
  }

  lemma ParseChannelFileOf(chip: u8, channel: u8, a: Attribute)
    ensures ParseChannelFile(chip, Decimal.ToDecimal(channel) + ['/'] + AttributeName(a))
         == Some(AttributeFile(chip, channel, a))
  {
    NoSlashInDecimal(channel);
    SplitAtFirstOf(Decimal.ToDecimal(channel), '/', AttributeName(a));
    ParseIndexOf(channel);
  }

  /** The part of a controller file's path after its chip's directory. */
  function ChipFileName(node: Node): string {
    match node
    case ControlFile(_, k) => ControlName(k)
    case AttributeFile(_, channel, a) => "pwm" + (Decimal.ToDecimal(channel) + ['/'] + AttributeName(a))
  }

  lemma PathOfShape(node: Node)
    ensures PathOf(node) == ClassRoot + (Decimal.ToDecimal(node.chip) + ['/'] + ChipFileName(node))
  {
    match node
    case ControlFile(chip, k) => ControlPathShape(chip, k);
    case AttributeFile(chip, channel, a) => AttributePathShape(chip, channel, a);
  }

  lemma ControlPathShape(chip: u8, k: Control)
    ensures PathOf(ControlFile(chip, k))
         == ClassRoot + (Decimal.ToDecimal(chip) + ['/'] + ControlName(k))
  {
    var c := Decimal.ToDecimal(chip);
    var name := ControlName(k);
    assert ClassRoot + c + "/" + name == ClassRoot + (c + ['/'] + name);
  }

  lemma AttributePathShape(chip: u8, channel: u8, a: Attribute)
    ensures PathOf(AttributeFile(chip, channel, a))
         == ClassRoot + (Decimal.ToDecimal(chip) + ['/'] + ("pwm" + (Decimal.ToDecimal(channel) + ['/'] + AttributeName(a))))
  {
    var c := Decimal.ToDecimal(chip);
    var n := Decimal.ToDecimal(channel);
    var name := AttributeName(a);
    assert ChannelDir(chip, channel) == ClassRoot + c + "/pwm" + n;
    assert "/pwm" == ['/'] + "pwm";
    assert ClassRoot + c + "/pwm" + n + "/" + name == ClassRoot + (c + ['/'] + ("pwm" + (n + ['/'] + name)));
  }

  lemma ParseChipFileOf(node: Node)
    ensures ParseChipFile(node.chip, ChipFileName(node)) == Some(node)
  {
    match node
    case ControlFile(chip, k) =>
    case AttributeFile(chip, channel, a) =>
      var rest := Decimal.ToDecimal(channel) + ['/'] + AttributeName(a);
      var file := ChipFileName(node);
      assert file[0] == 'p';
      assert ParseControl(file) == None;
      assert file[..3] == "pwm";
      assert file[3..] == rest;
      ParseChannelFileOf(chip, channel, a);
  }

  /** Every controller file's path reads back as that file. */
  lemma ParsePathOf(node: Node)
    ensures ParsePath(PathOf(node)) == Some(node)
  {
    var chipText := Decimal.ToDecimal(node.chip);
    var file := ChipFileName(node);
    var rest := chipText + ['/'] + file;
    PathOfShape(node);
    var p := ClassRoot + rest;
    assert p[..|ClassRoot|] == ClassRoot;
    assert p[|ClassRoot|..] == rest;
    NoSlashInDecimal(node.chip);
    SplitAtFirstOf(chipText, '/', file);
    ParseIndexOf(node.chip);
    ParseChipFileOf(node);
    assert ParseChipEntry(rest) == Some(node);
  }

  lemma ParseChannelFileParts(chip: u8, s: string)
    requires ParseChannelFile(chip, s).Some?
    ensures var node := ParseChannelFile(chip, s).value;
      node.AttributeFile? && node.chip == chip &&
      s == Decimal.ToDecimal(node.channel) + ['/'] + AttributeName(node.attribute)
  {
    SplitAtFirstParts(s, '/');
    ParseIndexParts(SplitAtFirst(s, '/').value.0);
  }

  lemma ParseChipFileParts(chip: u8, file: string)
    requires ParseChipFile(chip, file).Some?
    ensures var node := ParseChipFile(chip, file).value;
      node.chip == chip && PathOf(node) == ChipDir(chip) + ['/'] + file
  {
    if ParseControl(file).None? {
      ParseChipChannelFileParts(chip, file);
    }
  }

  lemma ParseChipChannelFileParts(chip: u8, file: string)
    requires |file| >= 3 && file[..3] == "pwm"
    requires ParseChannelFile(chip, file[3..]).Some?
    ensures var node := ParseChannelFile(chip, file[3..]).value;
      node.chip == chip && PathOf(node) == ChipDir(chip) + ['/'] + file
  {
    var rest := file[3..];
    assert file == "pwm" + rest;
    ParseChannelFileParts(chip, rest);
    var node := ParseChannelFile(chip, rest).value;
    var d := Decimal.ToDecimal(node.channel);
    var cd := ChipDir(chip);
    var name := AttributeName(node.attribute);
    assert rest == d + ['/'] + name;
    assert PathOf(node) == cd + "/pwm" + d + "/" + name;
    assert "/pwm" == ['/'] + "pwm";
    assert cd + "/pwm" + d + "/" + name == cd + ['/'] + ("pwm" + (d + ['/'] + name));
  }

  /** Whatever a path parses to, the path is that file's path. */
  lemma PathOfParse(p: string)
    requires ParsePath(p).Some?
    ensures PathOf(ParsePath(p).value) == p
  {
    var rest := p[|ClassRoot|..];
    assert p == ClassRoot + rest;
    SplitAtFirstParts(rest, '/');
    var parts := SplitAtFirst(rest, '/').value;
    ParseIndexParts(parts.0);
    ParseChipFileParts(ParseIndex(parts.0).value, parts.1);
  }

  /** Distinct channels have distinct directories, so the existence test of
      one channel never answers for another. */
  lemma ChannelDirInjective(chip: u8, channel: u8, chip': u8, channel': u8)
    ensures ChannelDir(chip, channel) == ChannelDir(chip', channel') ==> chip == chip' && channel == channel'
  {
    if ChannelDir(chip, channel) == ChannelDir(chip', channel') {
      PathOfInjective(AttributeFile(chip, channel, Period), AttributeFile(chip', channel', Period));
    }
  }

  /** Distinct controller files have distinct paths. */
  lemma PathOfInjective(x: Node, y: Node)
    ensures PathOf(x) == PathOf(y) ==> x == y
  {
    ParsePathOf(x);
    ParsePathOf(y);
  }

  // ----- the kernel side -----

  /** The directory tree after the kernel accepts `payload` written to
      `path`: a channel number written to a chip's export file creates that
      channel's directory, one written to unexport removes it, and every
      other write leaves the tree alone. */
  function KernelReact(dirs: set<string>, path: string, payload: string): set<string> {
    match ParsePath(path)
    case Some(ControlFile(chip, k)) =>
      (match ParseIndex(payload)
       case Some(channel) =>
         if k == Export then dirs + {ChannelDir(chip, channel)} else dirs - {ChannelDir(chip, channel)}
       case None => dirs)
    case _ => dirs
  }

  /** Writing channel `channel` to a chip's control file exports or
      unexports exactly that channel. */
  lemma KernelReactControl(dirs: set<string>, chip: u8, k: Control, channel: u8)
    ensures KernelReact(dirs, PathOf(ControlFile(chip, k)), Decimal.ToDecimal(channel))
         == if k == Export then dirs + {ChannelDir(chip, channel)} else dirs - {ChannelDir(chip, channel)}
  {
    ParsePathOf(ControlFile(chip, k));
    ParseIndexOf(channel);
  }

  /** Attribute writes never create or remove directories. */
  lemma KernelReactAttribute(dirs: set<string>, chip: u8, channel: u8, a: Attribute, payload: string)
    ensures KernelReact(dirs, PathOf(AttributeFile(chip, channel, a)), payload) == dirs
  {
    ParsePathOf(AttributeFile(chip, channel, a));
  }
}
