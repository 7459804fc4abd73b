/**
 * The multi-drop bus driver (TCM). A slot is an attribute on a device address, written
 * `attr@addr`. A read cycle sends `ATTR?@ADDR\r` for every header slot and decodes one
 * reply line per slot; a write sends `ATTR=VAL@ADDR\r` and checks one code line per slot.
 *
 * The serial port is replaced by values: what a cycle transmits is returned as `sent`,
 * and the bytes the port had buffered when the driver read them are the `reply` input.
 * Times are integer milliseconds.
 */
module Tcm {
  import opened Wrappers
  import opened Text
  import opened Base

  /** The fixed margin added to the bus time of one read cycle (0.005 s). */
  const MarginMs := 5
  const DefaultName := "TCM"
  const UnknownCode := "Unknown error code"

  // ---------------------------------------------------------------- device codes

  /** _errorcode_report: the text for a device-reported code, a fixed table over 0..8. */
  function ErrorCodeReport(code: Option<int>): (r: string)
    ensures (code.Some? && 0 <= code.value <= 8) <==> r != UnknownCode
    ensures code == Some(1) <==> r == "Command executed properly"
    ensures code == Some(8) <==> r == "Save executed properly"
  {
    if code.None? then UnknownCode
    else
      match code.value
      case 0 => "Invalid module"
      case 1 => "Command executed properly"
      case 2 => "Invalid parameter"
      case 3 => "Command is forbidden"
      case 4 => "Parameter out of range"
      case 5 => "Unknown error"
      case 6 => "Format error"
      case 7 => "Verification error"
      case 8 => "Save executed properly"
      case _ => UnknownCode
  }

  /** The codes a write accepts: "executed" and "saved". */
  predicate Accepted(code: Option<int>) {
    code == Some(1) || code == Some(8)
  }

  /**
   * extract_error_code: for a line starting with "CMD:", the first character after the
   * first '=' read as a digit; nothing for any other line.
   */
  function ExtractErrorCode(line: string): (r: Result<Option<int>, Fault>)
    ensures !StartsWith(line, "CMD:") <==> r == Ok(None)
    ensures r.Ok? && r.value.Some? ==> 0 <= r.value.value <= 9
  {
    if !StartsWith(line, "CMD:") then Ok(None)
    else
      var parts := Split(line, '=');
      if |parts| < 2 || |parts[1]| == 0 then Err(IndexError)
      else if IsDigit(parts[1][0]) then Ok(Some(DigitValue(parts[1][0])))
      else Err(ValueError(NotANumber))
  }

  /** A code line as a device sends it: `CMD:ATTR=CODE@ADDR`. */
  function CodeLine(attr: string, code: nat, addr: int): string
    requires code < 10
  {
    "CMD:" + attr + "=" + [DigitChar(code)] + "@" + IntToString(addr)
  }

  /** Decoding a device's code line, with whatever follows it, gives back its code. */
  lemma ExtractOfCodeLine(attr: string, code: nat, addr: int, rest: string)
    requires code < 10 && '=' !in attr
    ensures ExtractErrorCode(CodeLine(attr, code, addr) + rest) == Ok(Some(code))
  {
    var head := "CMD:" + attr;
    var tail := [DigitChar(code)] + "@" + IntToString(addr) + rest;
    var line := CodeLine(attr, code, addr) + rest;
    assert line == head + ['='] + tail;
    assert line[..4] == "CMD:";
    assert '=' !in head by {
      assert forall i :: 4 <= i < |head| ==> head[i] == attr[i - 4];
    }
    SplitAtFirstSep(head, '=', tail);
    var parts := Split(tail, '=');
    assert parts[0][0] == DigitChar(code);
  }

  // ---------------------------------------------------------------- slot keys

  /** The header of a key list: the keys in order, each kept at its first occurrence. */
  function Dedup(keys: seq<string>): (h: seq<string>)
    ensures forall k :: k in h <==> k in keys
    ensures Distinct(h)
    decreases |keys|
  {
    if |keys| == 0 then []
    else
      var init := keys[..|keys| - 1];
      var k := keys[|keys| - 1];
      assert keys == init + [k];
      var d := Dedup(init);
      if k in d then d else d + [k]
  }

  /** A list without repeats is its own header. */
  lemma {:induction false} DedupOfDistinct(keys: seq<string>)
    requires Distinct(keys)
    ensures Dedup(keys) == keys
    decreases |keys|
  {
    if |keys| > 0 {
      var init := keys[..|keys| - 1];
      DedupOfDistinct(init);
      assert keys == init + [keys[|keys| - 1]];
    }
  }

  /** Keys of the first list keep their place at the front: read keys come before write keys. */
  lemma {:induction false} DedupKeepsPrefix(a: seq<string>, b: seq<string>)
    ensures |Dedup(a)| <= |Dedup(a + b)| && Dedup(a + b)[..|Dedup(a)|] == Dedup(a)
    decreases |b|
  {
    if |b| == 0 {
      assert a + b == a;
    } else {
      var b' := b[..|b| - 1];
      DedupKeepsPrefix(a, b');
      assert (a + b)[..|a + b| - 1] == a + b';
    }
  }

  lemma DedupSnoc(keys: seq<string>, i: nat)
    requires i < |keys|
    ensures Dedup(keys[..i + 1]) == if keys[i] in Dedup(keys[..i]) then Dedup(keys[..i]) else Dedup(keys[..i]) + [keys[i]]
  {
    assert keys[..i + 1][..i] == keys[..i];
  }

  lemma IndexMapSnoc(h: seq<string>, m: map<string, nat>, k: string)
    requires IndexMap(h, m) && k !in m
    ensures IndexMap(h + [k], m[k := |h|])
  {
  }

  /** One key of the loop: a new key is appended and indexed, a repeated one changes nothing. */
  lemma HeaderStep(keys: seq<string>, i: nat, header: seq<string>, headermap: map<string, nat>)
    requires i < |keys| && header == Dedup(keys[..i]) && IndexMap(header, headermap)
    ensures keys[i] in headermap ==> header == Dedup(keys[..i + 1])
    ensures keys[i] !in headermap ==>
      header + [keys[i]] == Dedup(keys[..i + 1]) && IndexMap(header + [keys[i]], headermap[keys[i] := |header|])
  {
    DedupSnoc(keys, i);
    if keys[i] !in headermap {
      IndexMapSnoc(header, headermap, keys[i]);
    }
  }

  /** headermap: every header key to its position and nothing else. */
  ghost predicate IndexMap(h: seq<string>, m: map<string, nat>) {
    && (forall k :: k in m <==> k in h)
    && (forall i :: 0 <= i < |h| ==> m[h[i]] == i)
  }

  /** The key a slot is written as. */
  function SlotKey(attr: string, addr: int): string {
    attr + "@" + IntToString(addr)
  }

  /** One key split at '@' into the attribute and the integer address. */
  function ParseSlot(key: string): (r: Result<(string, int), Fault>)
    ensures |Split(key, '@')| != 2 ==> r == Err(ValueError(InvalidKeyFormat))
  {
    var parts := Split(key, '@');
    if |parts| != 2 then Err(ValueError(InvalidKeyFormat))
    else
      match ParseInt(parts[1])
      case None => Err(ValueError(NotANumber))
      case Some(n) => Ok((parts[0], n))
  }

  /**
   * A key that parses is the attribute, then the one '@' of the key, then the text of
   * an integer: the address.
   */
  lemma ParseSlotShape(key: string)
    requires ParseSlot(key).Ok?
    ensures var r := ParseSlot(key).value; var n := |r.0|;
      && n < |key| && key[..n] == r.0 && key[n] == '@' && '@' !in key[..n] && '@' !in key[n + 1..]
      && ParseInt(key[n + 1..]) == Some(r.1)
  {
    var parts := Split(key, '@');
    JoinOfSplit(key, '@');
    assert key == parts[0] + ['@'] + parts[1];
    assert key[|parts[0]| + 1..] == parts[1];
  }

  /** Parsing the key of a slot gives the slot back. */
  lemma ParseSlotOfSlotKey(attr: string, addr: int)
    requires '@' !in attr
    ensures ParseSlot(SlotKey(attr, addr)) == Ok((attr, addr))
  {
    IntToStringShape(addr);
    SplitAtFirstSep(attr, '@', IntToString(addr));
    SplitWithoutSep(IntToString(addr), '@');
    ParseIntOfIntToString(addr);
  }

  /**
   * The key/header loop of TCM.__init__: every key must hold an '@'; the header keeps
   * the first occurrence of each key and headermap gives each its index.
   */
  method BuildHeader(keys: seq<string>) returns (r: Result<(seq<string>, map<string, nat>), Fault>)
    ensures r.Ok? <==> forall i :: 0 <= i < |keys| ==> '@' in keys[i]
    ensures r.Err? ==> r.error == ValueError(KeyWithoutAt)
    ensures r.Ok? ==> r.value.0 == Dedup(keys) && IndexMap(r.value.0, r.value.1)
  {
    var header: seq<string> := [];
    var headermap: map<string, nat> := map[];
    for i := 0 to |keys|
      invariant header == Dedup(keys[..i])
      invariant IndexMap(header, headermap)
      invariant forall j :: 0 <= j < i ==> '@' in keys[j]
    {
      var k := keys[i];
      if '@' !in k {
        return Err(ValueError(KeyWithoutAt));
      }
      HeaderStep(keys, i, header, headermap);
      if k !in headermap {
        headermap := headermap[k := |header|];
        header := header + [k];
      }
    }
    assert keys[..|keys|] == keys;
    return Ok((header, headermap));
  }

  /**
   * The split loop of TCM.__init__ as a value: each header key becomes its attribute and
   * address, in header order, or the loop stops at the first key that does not split.
   */
  function SplitAll(header: seq<string>): (r: Result<(seq<string>, seq<int>), Fault>)
    ensures r.Ok? ==> |r.value.0| == |header| && |r.value.1| == |header|
  {
    if |header| == 0 then Ok(([], []))
    else
      match SplitAll(header[..|header| - 1])
      case Err(e) => Err(e)
      case Ok(p) =>
        match ParseSlot(header[|header| - 1])
        case Err(e) => Err(e)
        case Ok(slot) => Ok((p.0 + [slot.0], p.1 + [slot.1]))
  }

  /** In a split that gets through, entry i is the slot key i spells. */
  lemma {:induction false} SplitAllAt(header: seq<string>, i: nat)
    requires SplitAll(header).Ok? && i < |header|
    ensures ParseSlot(header[i]) == Ok((SplitAll(header).value.0[i], SplitAll(header).value.1[i]))
  {
    var n := |header| - 1;
    if i < n {
      SplitAllAt(header[..n], i);
      assert header[..n][i] == header[i];
    }
  }

  /** The split gets through exactly when every key parses. */
  lemma {:induction false} SplitAllOk(header: seq<string>)
    ensures SplitAll(header).Ok? <==> forall i :: 0 <= i < |header| ==> ParseSlot(header[i]).Ok?
  {
    if |header| > 0 {
      var n := |header| - 1;
      SplitAllOk(header[..n]);
      assert forall i :: 0 <= i < n ==> header[..n][i] == header[i];
    }
  }

  /** A key that does not parse, after keys that do, is the fault the split raises. */
  lemma {:induction false} SplitAllFirstFault(header: seq<string>, i: nat)
    requires i < |header| && ParseSlot(header[i]).Err?
    requires forall j :: 0 <= j < i ==> ParseSlot(header[j]).Ok?
    ensures SplitAll(header) == Err(ParseSlot(header[i]).error)
  {
    var n := |header| - 1;
    if i < n {
      SplitAllFirstFault(header[..n], i);
      assert header[..n][i] == header[i];
    } else {
      SplitAllOk(header[..n]);
      assert forall j :: 0 <= j < n ==> header[..n][j] == header[j];
    }
  }

  /** The split loop of TCM.__init__, key by key. */
  method SplitSlots(header: seq<string>) returns (r: Result<(seq<string>, seq<int>), Fault>)
    ensures r == SplitAll(header)
  {
    var attrs: seq<string> := [];
    var addrs: seq<int> := [];
    for i := 0 to |header|
      invariant SplitAll(header[..i]) == Ok((attrs, addrs))
    {
      assert header[..i + 1][..i] == header[..i];
      var slot := ParseSlot(header[i]);
      if slot.Err? {
        SplitAllStops(header, i + 1);
        return Err(slot.error);
      }
      attrs := attrs + [slot.value.0];
      addrs := addrs + [slot.value.1];
    }
    assert header[..|header|] == header;
    return Ok((attrs, addrs));
  }

  /** A split that stops on a prefix stops the same way on the whole header. */
  lemma {:induction false} SplitAllStops(header: seq<string>, k: nat)
    requires k <= |header| && SplitAll(header[..k]).Err?
    ensures SplitAll(header) == SplitAll(header[..k])
  {
    if k < |header| {
      var n := |header| - 1;
      assert header[..n][..k] == header[..k];
      SplitAllStops(header[..n], k);
    } else {
      assert header[..k] == header;
    }
  }

  /** The bus time of one read cycle: cmd_gap per slot plus the margin. */
  function BusMs(cmdGapMs: int, slots: nat): int {
    cmdGapMs * slots + MarginMs
  }

  /**
   * The timing floor: one read cycle spends cmd_gap per slot plus the margin on the bus,
   * so the sampling period must cover it; what is left is the rest time.
   */
  function CheckTiming(samplingMs: int, cmdGapMs: int, slots: nat): (r: Result<int, Fault>)
    ensures r.Ok? <==> BusMs(cmdGapMs, slots) <= samplingMs
    ensures r.Ok? ==> 0 <= r.value && r.value + BusMs(cmdGapMs, slots) == samplingMs
    ensures r.Err? ==> r.error == ValueError(SamplingTooShort)
  {
    var busMs := BusMs(cmdGapMs, slots);
    if samplingMs < busMs then Err(ValueError(SamplingTooShort)) else Ok(samplingMs - busMs)
  }

  // ---------------------------------------------------------------- configuration

  /** Attribute and address per key, in key order. */
  datatype Slots = Slots(keys: seq<string>, attrs: seq<string>, devices: seq<int>) {
    predicate Valid() {
      && |attrs| == |keys| && |devices| == |keys|
      && forall i :: 0 <= i < |keys| ==> ParseSlot(keys[i]) == Ok((attrs[i], devices[i]))
    }
  }

  /** The constructor's arguments; an empty name stands for "not given". */
  datatype TcmConfig = TcmConfig(
    name: string,
    samplingMs: int,
    numDevices: Option<int>,
    readKeys: seq<string>,
    write: bool,
    writeKeys: seq<string>,
    writeVals: seq<string>,
    cmdGapMs: int)

  /** What TCM.__init__ computes. */
  datatype TcmSetup = TcmSetup(
    info: DeviceInfo,
    headermap: map<string, nat>,
    attrs: seq<string>,
    addrs: seq<int>,
    writeMode: bool,
    write: Slots,
    numDevices: nat,
    cmdGapMs: int,
    restMs: int)
  {
    predicate Valid() {
      && |attrs| == |info.header| && |addrs| == |info.header|
      && (forall i :: 0 <= i < |info.header| ==> ParseSlot(info.header[i]) == Ok((attrs[i], addrs[i])))
      && write.Valid()
    }
  }

  function WriteKeysOf(cfg: TcmConfig): seq<string> {
    if cfg.write then cfg.writeKeys else []
  }

  function KeysOf(cfg: TcmConfig): seq<string> {
    cfg.readKeys + WriteKeysOf(cfg)
  }

  /** num_devices, when given and not zero, must equal the number of distinct addresses. */
  predicate DeviceCountOk(numDevices: Option<int>, addrs: seq<int>) {
    numDevices.None? || numDevices.value == 0 || numDevices.value == |set a | a in addrs|
  }

  function WriteValsOf(cfg: TcmConfig): seq<string> {
    if cfg.write then cfg.writeVals else []
  }

  /** The checks of TCM.__init__ in source order: the fault of the first one that fails. */
  function ConfigFault(cfg: TcmConfig): Option<Fault> {
    if cfg.samplingMs <= 0 then Some(AssertionError(SamplingTimeNotPositive))
    else if |WriteValsOf(cfg)| > 0 && |WriteKeysOf(cfg)| != |WriteValsOf(cfg)| then Some(AssertionError(WriteValsMismatch))
    else if cfg.write && |cfg.writeKeys| == 0 then Some(ValueError(NoWriteKeys))
    else if !(forall i :: 0 <= i < |KeysOf(cfg)| ==> '@' in KeysOf(cfg)[i]) then Some(ValueError(KeyWithoutAt))
    else LayoutFault(cfg, Dedup(KeysOf(cfg)))
  }

  /** The checks on the header: every key splits, the device count, the timing floor. */
  function LayoutFault(cfg: TcmConfig, header: seq<string>): Option<Fault> {
    match SplitAll(header)
    case Err(e) => Some(e)
    case Ok(slots) =>
      if !DeviceCountOk(cfg.numDevices, slots.1) then Some(AssertionError(DeviceCountMismatch))
      else if cfg.samplingMs < BusMs(cfg.cmdGapMs, |header|) then Some(ValueError(SamplingTooShort))
      else None
  }

  /** Positions in the header of the write keys, all of which are header keys. */
  function WriteSlots(writeKeys: seq<string>, headermap: map<string, nat>, attrs: seq<string>, addrs: seq<int>): Slots
    requires forall j :: 0 <= j < |writeKeys| ==> writeKeys[j] in headermap && headermap[writeKeys[j]] < |attrs| && headermap[writeKeys[j]] < |addrs|
  {
    Slots(writeKeys,
          seq(|writeKeys|, j requires 0 <= j < |writeKeys| => attrs[headermap[writeKeys[j]]]),
          seq(|writeKeys|, j requires 0 <= j < |writeKeys| => addrs[headermap[writeKeys[j]]]))
  }

  /** Looking the write keys up through headermap gives each the slot its key spells. */
  lemma WriteSlotsValid(header: seq<string>, headermap: map<string, nat>, attrs: seq<string>, addrs: seq<int>, writeKeys: seq<string>)
    requires IndexMap(header, headermap) && |attrs| == |header| && |addrs| == |header|
    requires forall i :: 0 <= i < |header| ==> ParseSlot(header[i]) == Ok((attrs[i], addrs[i]))
    requires forall j :: 0 <= j < |writeKeys| ==> writeKeys[j] in header
    ensures forall j :: 0 <= j < |writeKeys| ==> writeKeys[j] in headermap && headermap[writeKeys[j]] < |attrs| && headermap[writeKeys[j]] < |addrs|
    ensures WriteSlots(writeKeys, headermap, attrs, addrs).Valid()
  {
    forall j | 0 <= j < |writeKeys|
      ensures writeKeys[j] in headermap && headermap[writeKeys[j]] < |attrs|
    {
      var i :| 0 <= i < |header| && header[i] == writeKeys[j];
    }
  }

  /** What an accepted configuration builds. */
  ghost predicate Builds(cfg: TcmConfig, s: TcmSetup) {
    && s.Valid()
    && s.info == DeviceInfo(if cfg.name == "" then DefaultName else cfg.name, cfg.samplingMs, Dedup(KeysOf(cfg)))
    && IndexMap(s.info.header, s.headermap)
    && s.writeMode == cfg.write
    && s.write.keys == WriteKeysOf(cfg)
    && s.numDevices == |set a | a in s.addrs|
    && s.cmdGapMs == cfg.cmdGapMs
    && 0 <= s.restMs && s.restMs + BusMs(cfg.cmdGapMs, |s.info.header|) == cfg.samplingMs
  }

  /**
   * TCM.__init__ without the serial port and the precheck: the checks in source order,
   * the header, the slot tables and the rest time.
   */
  method Configure(cfg: TcmConfig) returns (r: Result<TcmSetup, Fault>)
    ensures r.Err? <==> ConfigFault(cfg).Some?
    ensures r.Err? ==> r.error == ConfigFault(cfg).value
    ensures r.Ok? ==> Builds(cfg, r.value)
  {
    var name := if cfg.name == "" then DefaultName else cfg.name;
    var base := InitDevice(name, cfg.samplingMs);
    if base.Err? {
      return Err(base.error);
    }
    var writeKeys := WriteKeysOf(cfg);
    var writeVals := WriteValsOf(cfg);
    if |writeVals| > 0 && |writeKeys| != |writeVals| {
      return Err(AssertionError(WriteValsMismatch));
    }
    if cfg.write && |cfg.writeKeys| == 0 {
      return Err(ValueError(NoWriteKeys));
    }
    var built := BuildHeader(cfg.readKeys + writeKeys);
    if built.Err? {
      return Err(built.error);
    }
    r := Assemble(cfg, base.value, built.value.0, built.value.1);
  }

  /** The rest of TCM.__init__ once the header is built. */
  method Assemble(cfg: TcmConfig, base: DeviceInfo, header: seq<string>, headermap: map<string, nat>)
    returns (r: Result<TcmSetup, Fault>)
    requires base == DeviceInfo(if cfg.name == "" then DefaultName else cfg.name, cfg.samplingMs, [])
    requires header == Dedup(KeysOf(cfg)) && IndexMap(header, headermap)
    ensures r.Err? <==> LayoutFault(cfg, header).Some?
    ensures r.Err? ==> r.error == LayoutFault(cfg, header).value
    ensures r.Ok? ==> Builds(cfg, r.value)
  {
    var split := SplitSlots(header);
    if split.Err? {
      return Err(split.error);
    }
    var attrs, addrs := split.value.0, split.value.1;
    forall i | 0 <= i < |header|
      ensures ParseSlot(header[i]) == Ok((attrs[i], addrs[i]))
    {
      SplitAllAt(header, i);
    }
    var writeKeys := WriteKeysOf(cfg);
    assert forall j :: 0 <= j < |writeKeys| ==> writeKeys[j] in header by {
      forall j | 0 <= j < |writeKeys|
        ensures writeKeys[j] in header
      {
        assert writeKeys[j] in KeysOf(cfg);
      }
    }
    WriteSlotsValid(header, headermap, attrs, addrs, writeKeys);
    var write := WriteSlots(writeKeys, headermap, attrs, addrs);
    var count := |set a | a in addrs|;
    if cfg.numDevices.Some? && cfg.numDevices.value != 0 && cfg.numDevices.value != count {
      return Err(AssertionError(DeviceCountMismatch));
    }
    var rest := CheckTiming(cfg.samplingMs, cfg.cmdGapMs, |header|);
    if rest.Err? {
      return Err(rest.error);
    }
    r := Ok(TcmSetup(base.(header := header), headermap, attrs, addrs, cfg.write, write, count, cfg.cmdGapMs, rest.value));
  }

  // ---------------------------------------------------------------- framing

  /** _read_cmd: `ATTR?@ADDR\r` */
  function ReadCmd(attr: string, addr: int): string {
    attr + "?@" + IntToString(addr) + "\r"
  }

  /** _write_cmd: `ATTR=VAL@ADDR\r`, the value given as the text the driver prints. */
  function WriteCmdText(attr: string, addr: int, val: string): string {
    attr + "=" + val + "@" + IntToString(addr) + "\r"
  }

  /** A value line as a device answers a read: `ATTR=VALUE@ADDR`. */
  function ValueLine(attr: string, text: string, addr: int): string {
    attr + "=" + text + "@" + IntToString(addr)
  }

  /** Lines each closed by `\r`, as the port buffers them. */
  function Frame(lines: seq<string>): string {
    if |lines| == 0 then "" else lines[0] + "\r" + Frame(lines[1..])
  }

  /** The reply split on `\r` with the trailing piece dropped. */
  function ReplyLines(reply: string): seq<string> {
    var pieces := Split(reply, '\r');
    pieces[..|pieces| - 1]
  }

  lemma {:induction false} FrameIsJoin(lines: seq<string>)
    ensures Frame(lines) == Join(lines + [""], '\r')
  {
    if |lines| > 0 {
      FrameIsJoin(lines[1..]);
      assert (lines + [""])[1..] == lines[1..] + [""];
    }
  }

  /** Framing lines that hold no `\r` and splitting the reply again gives the lines back. */
  lemma ReplyLinesOfFrame(lines: seq<string>)
    requires forall i :: 0 <= i < |lines| ==> '\r' !in lines[i]
    ensures ReplyLines(Frame(lines)) == lines
  {
    FrameIsJoin(lines);
    SplitOfJoin(lines + [""], '\r');
  }

  // ---------------------------------------------------------------- decoding a read

  /**
   * The numeric text of one reply line: the text between the first and second '=' with as
   * many characters cut from its end as `@ADDR` has. The suffix is removed by length only;
   * a line without a second field has none.
   */
  function FieldText(line: string, addr: int): Option<string> {
    var parts := Split(line, '=');
    if |parts| < 2 then None
    else
      var field := parts[1];
      var n := 1 + |IntToString(addr)|;
      Some(if n >= |field| then "" else field[..|field| - n])
  }

  /** The numeric text read as a float. */
  function DecodeField(text: string): Result<Value, Fault> {
    match ParseReal(text)
    case None => Err(ValueError(NotANumber))
    case Some(x) => Ok(Num(x))
  }

  /** One reply line decoded: an index error without a second field, else its numeric text read. */
  function DecodeLine(line: string, addr: int): Result<Value, Fault> {
    match FieldText(line, addr)
    case None => Err(IndexError)
    case Some(cut) => DecodeField(cut)
  }

  /** The lines decoded in order; the first line that fails ends the cycle with its fault. */
  function DecodeLines(lines: seq<string>, addrs: seq<int>): (r: Result<seq<Value>, Fault>)
    requires |lines| == |addrs|
    ensures r.Ok? ==> |r.value| == |lines|
  {
    if |lines| == 0 then Ok([])
    else
      match DecodeLine(lines[0], addrs[0])
      case Err(e) => Err(e)
      case Ok(v) =>
        match DecodeLines(lines[1..], addrs[1..])
        case Err(e) => Err(e)
        case Ok(vs) => Ok([v] + vs)
  }

  /**
   * read_data's decoding: no data unless the reply has exactly one line per slot,
   * otherwise exactly one value per slot.
   */
  function DecodeReply(reply: string, addrs: seq<int>): (r: Result<Option<seq<Value>>, Fault>)
    ensures |ReplyLines(reply)| != |addrs| <==> r == Ok(None)
    ensures r.Ok? && r.value.Some? ==> |r.value.value| == |addrs|
  {
    var lines := ReplyLines(reply);
    if |lines| != |addrs| then Ok(None)
    else
      match DecodeLines(lines, addrs)
      case Err(e) => Err(e)
      case Ok(vs) => Ok(Some(vs))
  }

  /**
   * A value line decodes to its value when the address it carries is written with as many
   * characters as the expected one: the suffix is dropped by length, not compared.
   */
  lemma DecodeLineOfValueLine(attr: string, text: string, shown: int, addr: int)
    requires '=' !in attr && '=' !in text
    requires |IntToString(shown)| == |IntToString(addr)|
    ensures FieldText(ValueLine(attr, text, shown), addr) == Some(text)
    ensures DecodeLine(ValueLine(attr, text, shown), addr) == DecodeField(text)
  {
    var tail := text + "@" + IntToString(shown);
    assert ValueLine(attr, text, shown) == attr + ['='] + tail;
    IntToStringShape(shown);
    assert '=' !in tail;
    SplitAtFirstSep(attr, '=', tail);
    SplitWithoutSep(tail, '=');
    assert tail[..|tail| - (1 + |IntToString(addr)|)] == text;
  }

  /** Value lines, each naming its own address, decode to their values, in order. */
  lemma {:induction false} DecodeLinesOfValueLines(lines: seq<string>, addrs: seq<int>, attrs: seq<string>, texts: seq<string>, xs: seq<real>)
    requires |lines| == |addrs| == |attrs| == |texts| == |xs|
    requires forall i :: 0 <= i < |lines| ==>
      && lines[i] == ValueLine(attrs[i], texts[i], addrs[i])
      && '=' !in attrs[i] && '=' !in texts[i] && ParseReal(texts[i]) == Some(xs[i])
    ensures DecodeLines(lines, addrs).Ok?
    ensures forall i :: 0 <= i < |lines| ==> DecodeLines(lines, addrs).value[i] == Num(xs[i])
  {
    if |lines| > 0 {
      DecodeLineOfValueLine(attrs[0], texts[0], addrs[0], addrs[0]);
      DecodeLinesOfValueLines(lines[1..], addrs[1..], attrs[1..], texts[1..], xs[1..]);
    }
  }

  /** The whole read cycle: a reply framed from one value line per slot decodes to its values. */
  lemma DecodeReplyOfFramedValues(addrs: seq<int>, attrs: seq<string>, texts: seq<string>, xs: seq<real>)
    requires |addrs| == |attrs| == |texts| == |xs|
    requires forall i :: 0 <= i < |addrs| ==>
      && '=' !in attrs[i] && '\r' !in attrs[i] && '=' !in texts[i] && '\r' !in texts[i]
      && ParseReal(texts[i]) == Some(xs[i])
    ensures var lines := seq(|addrs|, i requires 0 <= i < |addrs| => ValueLine(attrs[i], texts[i], addrs[i]));
      var r := DecodeReply(Frame(lines), addrs);
      r.Ok? && r.value.Some? && forall i :: 0 <= i < |addrs| ==> r.value.value[i] == Num(xs[i])
  {
    var lines := seq(|addrs|, i requires 0 <= i < |addrs| => ValueLine(attrs[i], texts[i], addrs[i]));
    forall i | 0 <= i < |lines|
      ensures '\r' !in lines[i]
    {
      IntToStringShape(addrs[i]);
    }
    ReplyLinesOfFrame(lines);
    DecodeLinesOfValueLines(lines, addrs, attrs, texts, xs);
  }

  // ---------------------------------------------------------------- write replies

  /** The commands of a write batch: one per position of the shortest of the three lists. */
  function WriteCommands(attributes: seq<string>, addresses: seq<int>, vals: seq<string>): (c: seq<string>)
  {
    var n := Min(Min(|attributes|, |addresses|), |vals|);
    seq(n, i requires 0 <= i < n => WriteCmdText(attributes[i], addresses[i], vals[i]))
  }

  function Min(a: int, b: int): int { if a <= b then a else b }

  /** The slot the batch loop sent last, if it sent any. */
  function LastSent(attributes: seq<string>, addresses: seq<int>, vals: seq<string>): Option<(string, int)>
  {
    var n := Min(Min(|attributes|, |addresses|), |vals|);
    if n == 0 then None else Some((attributes[n - 1], addresses[n - 1]))
  }

  /**
   * write_cmds' check of the reply: every line's code must be 1 or 8; the first line that
   * fails raises, naming the slot sent last (and with nothing sent that name is unbound).
   */
  function BatchVerdict(lines: seq<string>, last: Option<(string, int)>): Outcome<Fault>
  {
    if |lines| == 0 then Pass
    else
      match ExtractErrorCode(lines[0])
      case Err(e) => Fail(e)
      case Ok(code) =>
        if Accepted(code) then BatchVerdict(lines[1..], last)
        else Fail(match last case None => NameError case Some(s) => AttributeError(code, s.0, s.1))
  }

  /**
   * A batch passes exactly when every reply line carries code 1 or 8; a rejected code is
   * reported against the last slot sent, not against the line that carried it.
   */
  lemma {:induction false} BatchVerdictPassIff(lines: seq<string>, last: Option<(string, int)>)
    ensures BatchVerdict(lines, last) == Pass
        <==> forall i :: 0 <= i < |lines| ==> ExtractErrorCode(lines[i]).Ok? && Accepted(ExtractErrorCode(lines[i]).value)
    ensures BatchVerdict(lines, last).Fail? && BatchVerdict(lines, last).error.AttributeError? ==>
      last.Some? && BatchVerdict(lines, last).error.attr == last.value.0 && BatchVerdict(lines, last).error.addr == last.value.1
  {
    if |lines| > 0 {
      BatchVerdictPassIff(lines[1..], last);
      if ExtractErrorCode(lines[0]).Ok? && Accepted(ExtractErrorCode(lines[0]).value) {
        assert forall i :: 1 <= i < |lines| ==> lines[i] == lines[1..][i - 1];
      }
    }
  }

  /** The check write_cmd applies to its reply as written: `code != 1 or code != 8`. */
  function SingleVerdictAsWritten(reply: string, attr: string, addr: int): Outcome<Fault>
  {
    match ExtractErrorCode(reply)
    case Err(e) => Fail(e)
    case Ok(code) =>
      if code != Some(1) || code != Some(8) then Fail(AttributeError(code, attr, addr)) else Pass
  }

  /** The check write_cmd evidently intends, the one write_cmds applies: code 1 or 8 passes. */
  function SingleVerdict(reply: string, attr: string, addr: int): (v: Outcome<Fault>)
    ensures v == Pass <==> ExtractErrorCode(reply).Ok? && Accepted(ExtractErrorCode(reply).value)
  {
    match ExtractErrorCode(reply)
    case Err(e) => Fail(e)
    case Ok(code) => if Accepted(code) then Pass else Fail(AttributeError(code, attr, addr))
  }

  /**
   * As written, write_cmd rejects even the "executed" reply of the very slot it wrote,
   * which the intended check accepts.
   */
  lemma WriteCmdRejectsExecuted(attr: string, addr: int)
    requires '=' !in attr
    ensures SingleVerdictAsWritten(CodeLine(attr, 1, addr) + "\r", attr, addr)
         == Fail(AttributeError(Some(1), attr, addr))
    ensures SingleVerdict(CodeLine(attr, 1, addr) + "\r", attr, addr) == Pass
  {
    ExtractOfCodeLine(attr, 1, addr, "\r");
  }

  // ---------------------------------------------------------------- write_data

  /** The data argument of write_data. */
  datatype WriteInput =
    | DictData(pairs: seq<(string, string)>)
    | ListData(vals: seq<string>)
    | ScalarData(val: string)
    | OtherData

  /** The keys argument of write_data: absent, one key string, or a list of keys. */
  datatype KeysArg = NoKeys | OneKey(key: string) | KeyList(keys: seq<string>)

  /** The keys and values write_data settles on; `isText` when the keys are a bare string. */
  datatype Selection = Selection(keys: seq<string>, vals: seq<string>, isText: bool)

  /** The first half of write_data: which keys and values the call names. */
  function Select(data: WriteInput, keys: KeysArg, writeKeys: seq<string>): Result<Selection, Fault>
  {
    match data
    case DictData(pairs) =>
      Ok(Selection(seq(|pairs|, i requires 0 <= i < |pairs| => pairs[i].0),
                   seq(|pairs|, i requires 0 <= i < |pairs| => pairs[i].1), false))
    case ListData(vals) =>
      (match keys
       case NoKeys => Ok(Selection(writeKeys, vals, false))
       case KeyList(ks) => Ok(Selection(if ks == [] then writeKeys else ks, vals, false))
       case OneKey(k) =>
         if k == "" then Ok(Selection(writeKeys, vals, false))
         else Ok(Selection(seq(|k|, i requires 0 <= i < |k| => [k[i]]), vals, true)))
    case ScalarData(v) =>
      (match keys
       case NoKeys => Ok(Selection(writeKeys, [v], false))
       case KeyList(ks) => Ok(Selection(if ks == [] then writeKeys else ks, [v], false))
       case OneKey(k) => Ok(Selection(if k == "" then writeKeys else [k], [v], false)))
    case OtherData => Err(ValueError(UnsupportedData))
  }

  /** issubset_write_keys: every key named is a write key. */
  predicate IsSubsetOfKeys(keys: seq<string>, writeKeys: seq<string>) {
    forall k :: k in keys ==> k in writeKeys
  }

  /** list.index: the first position of x. */
  function IndexOf(s: seq<string>, x: string): (i: nat)
    requires x in s
    ensures i < |s| && s[i] == x && forall j :: 0 <= j < i ==> s[j] != x
  {
    if s[0] == x then 0 else 1 + IndexOf(s[1..], x)
  }

  /** Each key looked up by its position among the write keys. */
  function Resolve(keys: seq<string>, write: Slots): Slots
    requires write.Valid()
    requires forall i :: 0 <= i < |keys| ==> keys[i] in write.keys
  {
    Slots(keys,
          seq(|keys|, i requires 0 <= i < |keys| => write.attrs[IndexOf(write.keys, keys[i])]),
          seq(|keys|, i requires 0 <= i < |keys| => write.devices[IndexOf(write.keys, keys[i])]))
  }

  /** The slots a write_data call writes, the values, and whether it re-targets tmp_write_*. */
  datatype Plan = Plan(slots: Slots, vals: seq<string>, retarget: bool)

  function PlanWrite(write: Slots, tmp: Slots, data: WriteInput, keys: KeysArg): Result<Plan, Fault>
    requires write.Valid()
  {
    match Select(data, keys, write.keys)
    case Err(e) => Err(e)
    case Ok(sel) =>
      if |sel.keys| != |sel.vals| then Err(AssertionError(DataKeysMismatch))
      else if !sel.isText && sel.keys == write.keys then Ok(Plan(write, sel.vals, false))
      else if !sel.isText && sel.keys == tmp.keys then Ok(Plan(tmp, sel.vals, false))
      else if !IsSubsetOfKeys(sel.keys, write.keys) then Err(ValueError(KeysNotSubset))
      else Ok(Plan(Resolve(sel.keys, write), sel.vals, true))
  }

  /**
   * Whatever branch write_data takes, it writes exactly the keys the call names, one value
   * each, every key a write key, each to the attribute and address the key itself spells.
   */
  lemma PlanWritesNamedSlots(write: Slots, tmp: Slots, data: WriteInput, keys: KeysArg)
    requires write.Valid() && tmp.Valid()
    requires forall i :: 0 <= i < |tmp.keys| ==> tmp.keys[i] in write.keys
    requires PlanWrite(write, tmp, data, keys).Ok?
    ensures var p := PlanWrite(write, tmp, data, keys).value;
      && p.slots.Valid()
      && p.slots.keys == Select(data, keys, write.keys).value.keys
      && |p.vals| == |p.slots.keys|
      && forall i :: 0 <= i < |p.slots.keys| ==> p.slots.keys[i] in write.keys
  {
    var sel := Select(data, keys, write.keys).value;
    var p := PlanWrite(write, tmp, data, keys).value;
    if p.retarget {
      forall i | 0 <= i < |sel.keys|
        ensures ParseSlot(p.slots.keys[i]) == Ok((p.slots.attrs[i], p.slots.devices[i]))
      {
        var j := IndexOf(write.keys, sel.keys[i]);
        assert write.keys[j] == sel.keys[i];
      }
    }
  }

  /** Data and keys that name a key outside the write keys are refused. */
  lemma UnknownKeyRefused(write: Slots, tmp: Slots, k: string)
    requires write.Valid() && tmp.Valid()
    requires forall i :: 0 <= i < |tmp.keys| ==> tmp.keys[i] in write.keys
    requires k != "" && k !in write.keys
    ensures PlanWrite(write, tmp, ScalarData("1"), OneKey(k)) == Err(ValueError(KeysNotSubset))
  {
    var sel := Select(ScalarData("1"), OneKey(k), write.keys).value;
    assert sel.keys == [k];
    assert write.keys != [k];
    assert k !in tmp.keys;
    assert tmp.keys != [k];
  }

  // ---------------------------------------------------------------- the driver object

  class TCM {
    const name: string
    const samplingMs: int
    const header: seq<string>
    const headermap: map<string, nat>
    const attrs: seq<string>
    const addrs: seq<int>
    const writeMode: bool
    const write: Slots
    const numDevices: nat
    const cmdGapMs: int
    const restMs: int
    /** tmp_write_keys / tmp_write_attrs / tmp_write_devices: the subset written last. */
    var tmpWrite: Slots

    ghost predicate Valid()
      reads this
    {
      && |attrs| == |header| && |addrs| == |header|
      && (forall i :: 0 <= i < |header| ==> ParseSlot(header[i]) == Ok((attrs[i], addrs[i])))
      && write.Valid() && tmpWrite.Valid()
      && forall i :: 0 <= i < |tmpWrite.keys| ==> tmpWrite.keys[i] in write.keys
    }

    /** Stores what Configure built; the last-written subset starts as all write keys. */
    constructor (s: TcmSetup)
      requires s.Valid()
      ensures Valid()
      ensures name == s.info.name && samplingMs == s.info.samplingMs && header == s.info.header
      ensures headermap == s.headermap && attrs == s.attrs && addrs == s.addrs
      ensures writeMode == s.writeMode && write == s.write && numDevices == s.numDevices
      ensures cmdGapMs == s.cmdGapMs && restMs == s.restMs && tmpWrite == s.write
    {
      name := s.info.name;
      samplingMs := s.info.samplingMs;
      header := s.info.header;
      headermap := s.headermap;
      attrs := s.attrs;
      addrs := s.addrs;
      writeMode := s.writeMode;
      write := s.write;
      numDevices := s.numDevices;
      cmdGapMs := s.cmdGapMs;
      restMs := s.restMs;
      tmpWrite := s.write;
    }

    /**
     * read_data: one read request per header slot in header order, then the reply decoded;
     * a reply with the wrong number of lines is "no data", a decoded one fits the header.
     */
    method ReadData(reply: string) returns (sent: seq<string>, r: Result<Option<seq<Value>>, Fault>)
      requires Valid()
      ensures |sent| == |header|
      ensures forall i :: 0 <= i < |header| ==> sent[i] == ReadCmd(attrs[i], addrs[i])
      ensures r == DecodeReply(reply, addrs)
      ensures r.Ok? && r.value.Some? ==> FitsHeader(header, r.value.value)
    {
      sent := SendReads(attrs, addrs);
      r := DecodeReplyInOrder(reply, addrs);
    }

    /** write_cmd (with the intended check): one command, its reply must carry code 1 or 8. */
    method WriteCmd(attr: string, addr: int, val: string, reply: string) returns (sent: seq<string>, r: Outcome<Fault>)
      ensures !writeMode ==> sent == [] && r == Fail(RuntimeError)
      ensures writeMode ==> sent == [WriteCmdText(attr, addr, val)] && r == SingleVerdict(reply, attr, addr)
    {
      if !writeMode {
        return [], Fail(RuntimeError);
      }
      sent := [WriteCmdText(attr, addr, val)];
      r := SingleVerdict(reply, attr, addr);
    }

    /**
     * write_cmds: one command per slot, then every reply line checked in order; the first
     * line whose code is neither 1 nor 8 ends the batch.
     */
    method WriteCmds(attributes: seq<string>, addresses: seq<int>, vals: seq<string>, reply: string)
      returns (sent: seq<string>, r: Outcome<Fault>)
      ensures !writeMode ==> sent == [] && r == Fail(RuntimeError)
      ensures writeMode ==> sent == WriteCommands(attributes, addresses, vals)
      ensures writeMode ==> r == BatchVerdict(ReplyLines(reply), LastSent(attributes, addresses, vals))
    {
      if !writeMode {
        return [], Fail(RuntimeError);
      }
      var n := Min(Min(|attributes|, |addresses|), |vals|);
      sent := [];
      for i := 0 to n
        invariant |sent| == i
        invariant forall j :: 0 <= j < i ==> sent[j] == WriteCmdText(attributes[j], addresses[j], vals[j])
      {
        sent := sent + [WriteCmdText(attributes[i], addresses[i], vals[i])];
      }
      var last := LastSent(attributes, addresses, vals);
      var lines := ReplyLines(reply);
      for i := 0 to |lines|
        invariant BatchVerdict(lines, last) == BatchVerdict(lines[i..], last)
      {
        assert lines[i..][1..] == lines[i + 1..];
        var code := ExtractErrorCode(lines[i]);
        if code.Err? {
          return sent, Fail(code.error);
        }
        if !Accepted(code.value) {
          return sent, Fail(match last case None => NameError case Some(s) => AttributeError(code.value, s.0, s.1));
        }
      }
      r := Pass;
    }

    /**
     * write_data: works out the keys and values, re-targets tmp_write_* when the keys are a
     * new subset, and writes the batch; tmp_write_* changes before the batch is checked.
     */
    method WriteData(data: WriteInput, keys: KeysArg, reply: string) returns (sent: seq<string>, r: Outcome<Fault>)
      requires Valid()
      modifies this
      ensures Valid()
      ensures !writeMode ==> sent == [] && r == Fail(RuntimeError) && tmpWrite == old(tmpWrite)
      ensures writeMode && PlanWrite(write, old(tmpWrite), data, keys).Err? ==>
        sent == [] && r == Fail(PlanWrite(write, old(tmpWrite), data, keys).error) && tmpWrite == old(tmpWrite)
      ensures writeMode && PlanWrite(write, old(tmpWrite), data, keys).Ok? ==>
        var p := PlanWrite(write, old(tmpWrite), data, keys).value;
        && sent == WriteCommands(p.slots.attrs, p.slots.devices, p.vals)
        && r == BatchVerdict(ReplyLines(reply), LastSent(p.slots.attrs, p.slots.devices, p.vals))
        && tmpWrite == (if p.retarget then p.slots else old(tmpWrite))
    {
      if !writeMode {
        return [], Fail(RuntimeError);
      }
      var plan := PlanWrite(write, tmpWrite, data, keys);
      if plan.Err? {
        return [], Fail(plan.error);
      }
      PlanWritesNamedSlots(write, tmpWrite, data, keys);
      if plan.value.retarget {
        tmpWrite := plan.value.slots;
      }
      sent, r := WriteCmds(plan.value.slots.attrs, plan.value.slots.devices, plan.value.vals, reply);
    }
  }

  /** Values decoded so far put in front of what the rest of the lines decode to. */
  function Prepend(values: seq<Value>, rest: Result<seq<Value>, Fault>): Result<seq<Value>, Fault> {
    match rest
    case Err(e) => Err(e)
    case Ok(vs) => Ok(values + vs)
  }

  lemma DecodeLinesStep(lines: seq<string>, addrs: seq<int>, i: nat, values: seq<Value>)
    requires |lines| == |addrs| && i < |lines|
    requires DecodeLines(lines, addrs) == Prepend(values, DecodeLines(lines[i..], addrs[i..]))
    ensures DecodeLine(lines[i], addrs[i]).Err? ==> DecodeLines(lines, addrs) == Err(DecodeLine(lines[i], addrs[i]).error)
    ensures DecodeLine(lines[i], addrs[i]).Ok? ==>
      DecodeLines(lines, addrs) == Prepend(values + [DecodeLine(lines[i], addrs[i]).value], DecodeLines(lines[i + 1..], addrs[i + 1..]))
  {
    assert lines[i..][1..] == lines[i + 1..] && addrs[i..][1..] == addrs[i + 1..];
    var rest := DecodeLines(lines[i + 1..], addrs[i + 1..]);
    if DecodeLine(lines[i], addrs[i]).Ok? && rest.Ok? {
      assert values + ([DecodeLine(lines[i], addrs[i]).value] + rest.value)
          == (values + [DecodeLine(lines[i], addrs[i]).value]) + rest.value;
    }
  }

  /** The decoding loop of read_data: line by line, stopping at the first line that fails. */
  method DecodeInOrder(lines: seq<string>, addrs: seq<int>) returns (r: Result<seq<Value>, Fault>)
    requires |lines| == |addrs|
    ensures r == DecodeLines(lines, addrs)
  {
    var values: seq<Value> := [];
    assert lines[0..] == lines && addrs[0..] == addrs;
    assert DecodeLines(lines, addrs).Ok? ==> [] + DecodeLines(lines, addrs).value == DecodeLines(lines, addrs).value;
    for i := 0 to |lines|
      invariant |values| == i
      invariant DecodeLines(lines, addrs) == Prepend(values, DecodeLines(lines[i..], addrs[i..]))
    {
      DecodeLinesStep(lines, addrs, i, values);
      var v := DecodeLine(lines[i], addrs[i]);
      if v.Err? {
        return Err(v.error);
      }
      values := values + [v.value];
    }
    assert lines[|lines|..] == [] && addrs[|lines|..] == [];
    assert values + [] == values;
    return Ok(values);
  }

  /** The request loop of read_data: one read command per slot, in header order. */
  method SendReads(attrs: seq<string>, addrs: seq<int>) returns (sent: seq<string>)
    requires |attrs| == |addrs|
    ensures |sent| == |attrs|
    ensures forall i :: 0 <= i < |attrs| ==> sent[i] == ReadCmd(attrs[i], addrs[i])
  {
    sent := [];
    for i := 0 to |attrs|
      invariant |sent| == i
      invariant forall j :: 0 <= j < i ==> sent[j] == ReadCmd(attrs[j], addrs[j])
    {
      sent := sent + [ReadCmd(attrs[i], addrs[i])];
    }
  }

  /** read_data after the requests: no data unless there is one reply line per slot. */
  method DecodeReplyInOrder(reply: string, addrs: seq<int>) returns (r: Result<Option<seq<Value>>, Fault>)
    ensures r == DecodeReply(reply, addrs)
  {
    var lines := ReplyLines(reply);
    if |lines| != |addrs| {
      return Ok(None);
    }
    var values := DecodeInOrder(lines, addrs);
    r := match values case Err(e) => Err(e) case Ok(vs) => Ok(Some(vs));
  }
}
