/**
 * The TCHAT thermocouple board, driven through the `smtc` command-line tool: checking
 * the stack level and the sensor map, building the header and the per-channel read
 * table, and scaling one round of tool outputs into a reading.
 *
 * The tool itself is not part of this model: the commands the driver would run are
 * returned as argument lists, and what the tool prints is passed in as text.
 */
module Smtc {
  import opened Wrappers
  import opened Text
  import opened Base

  const Tool := "smtc"
  const MaxStack := 7
  const MaxChannel := 8

  /** The thermocouple types the board knows; a type's code is its position here. */
  const TypeLetters := "BEJKNRST"

  /** The type a sensor gets when its record names none. */
  const DefaultType := "K"

  /** One sensor record: its type, q and s_value keys. */
  datatype TcCfg = TcCfg(sensorType: Field<string>, q: Field<bool>, sValue: Field<real>)

  /** An entry of sensors2read: the tool command for the channel and the factor its output is scaled by. */
  datatype ReadSpec = ReadSpec(cmd: string, coeff: real)

  /** One configured channel: its id, how it is read and its header label. */
  datatype Channel = Channel(id: int, spec: ReadSpec, column: string)

  datatype TcConfig = TcConfig(
    stack: int,
    name: Option<string>,
    samplingMs: int,
    /** channel id to its record, in the order the configuration lists them */
    sensors: seq<(int, TcCfg)>)

  /** What __init__ leaves in the fields of a TCHAT. */
  datatype TcSetup = TcSetup(
    info: DeviceInfo,
    address: string,
    numSensors: nat,
    /** sensor_ids: the configured ids, ascending */
    sensorIds: seq<int>,
    /** the configured ids in configuration order, the order of the header */
    order: seq<int>,
    /** sensors2read */
    table: map<int, ReadSpec>)
  {
    ghost predicate Valid() {
      Laid(address, info.header, order, table, sensorIds)
    }
  }

  /** The first position of c in s, or |s| when it does not occur. */
  function Position(c: char, s: string): (r: nat)
    ensures r <= |s|
    ensures r < |s| ==> s[r] == c
    ensures forall i :: 0 <= i < r ==> s[i] != c
  {
    if |s| == 0 then 0
    else if s[0] == c then 0
    else 1 + Position(c, s[1..])
  }

  /** _sensor_types: the code of a type name, if it is one of the eight. */
  function TypeCode(name: string): (r: Option<nat>)
    ensures r.Some? <==> exists i :: 0 <= i < |TypeLetters| && name == [TypeLetters[i]]
    ensures r.Some? ==> r.value < |TypeLetters| && name == [TypeLetters[r.value]]
  {
    if |name| == 1 && Position(name[0], TypeLetters) < |TypeLetters| then
      Some(Position(name[0], TypeLetters))
    else None
  }

  /** v.get('type', 'K') looked up in _sensor_types; a missing type is K, anything unknown a ValueError. */
  function SensorTypeCode(t: Field<string>): (r: Result<nat, Fault>)
    ensures r.Ok? ==> r.value < |TypeLetters|
    ensures t.Absent? ==> r == Ok(3) && DefaultType == [TypeLetters[3]]
    ensures t.Null? ==> r == Err(ValueError(InvalidSensorType))
    ensures t.Given? ==> (r.Ok? <==> TypeCode(t.v).Some?)
    ensures t.Given? && r.Ok? ==> t.v == [TypeLetters[r.value]]
    ensures r.Err? ==> r.error == ValueError(InvalidSensorType)
  {
    var name := match t case Given(n) => n case Absent => DefaultType case Null => "";
    assert TypeLetters[3] == 'K';
    match TypeCode(name)
    case Some(code) => Ok(code)
    case None => Err(ValueError(InvalidSensorType))
  }

  /** The stacks `smtc -list` reports: the words of its second line after the first. */
  function ListedStacks(listing: string): (r: Result<seq<string>, Fault>)
    ensures r.Err? <==> |Split(RStrip(listing, '\n'), '\n')| < 2
    ensures r.Err? ==> r.error == IndexError
  {
    var lines := Split(RStrip(listing, '\n'), '\n');
    if |lines| < 2 then Err(IndexError) else Ok(Split(lines[1], ' ')[1..])
  }

  /** The header label of channel id on the board at address: q for heat flux, T for temperature. */
  function Label(kind: char, id: int, address: string): string {
    [kind] + IntToString(id) + "@TCHAT" + address
  }

  /** The label letter of a channel read with this entry: q for millivolts, T otherwise. */
  function KindOf(spec: ReadSpec): char {
    if spec.cmd == "readmv" then 'q' else 'T'
  }

  predicate QOn(c: TcCfg) {
    c.q == Given(true)
  }

  /** The heat-flux coefficient of a sensor of sensitivity s: 1000 / s. */
  function Coefficient(s: real): real
    requires s > 0.0
  {
    1000.0 / s
  }

  /**
   * The read entry and label of one sensor: with q on, the millivolt reading scaled by
   * 1000 / s_value, otherwise the temperature as the tool prints it.
   */
  function ChannelOf(address: string, id: int, c: TcCfg): (r: Result<Channel, Fault>)
    ensures r.Ok? <==> !QOn(c) || (c.sValue.Given? && c.sValue.v > 0.0)
    ensures r.Err? && !c.sValue.Absent? ==> r.error == ValueError(SValueNotPositive)
    ensures r.Err? && c.sValue.Absent? ==> r.error == KeyError
    ensures r.Ok? && QOn(c) ==>
      r.value.spec == ReadSpec("readmv", Coefficient(c.sValue.v))
      && r.value.column == Label('q', id, address)
    ensures r.Ok? && !QOn(c) ==> r.value.spec == ReadSpec("read", 1.0) && r.value.column == Label('T', id, address)
    ensures r.Ok? ==> r.value.id == id
  {
    if QOn(c) then
      if c.sValue.Absent? then Err(KeyError)
      else if c.sValue.Null? || c.sValue.v <= 0.0 then Err(ValueError(SValueNotPositive))
      else Ok(Channel(id, ReadSpec("readmv", Coefficient(c.sValue.v)), Label('q', id, address)))
    else Ok(Channel(id, ReadSpec("read", 1.0), Label('T', id, address)))
  }

  /** The command that sets the thermocouple type of channel id. */
  function TypeCmd(address: string, id: int, code: nat): seq<string> {
    [Tool, address, "stypewr", IntToString(id), IntToString(code)]
  }

  /**
   * The sensor loop of __init__ over the records in configuration order: the commands it
   * runs, and the channels it configures or the exception it stops with. A record's
   * type is set before its q settings are checked.
   */
  function Walk(address: string, sensors: seq<(int, TcCfg)>): (w: (seq<seq<string>>, Result<seq<Channel>, Fault>))
    ensures w.1.Ok? ==> |w.1.value| == |sensors| && |w.0| == |sensors|
  {
    if |sensors| == 0 then ([], Ok([]))
    else
      var before := Walk(address, sensors[..|sensors| - 1]);
      var (id, c) := sensors[|sensors| - 1];
      if before.1.Err? then before
      else
        match SensorTypeCode(c.sensorType)
        case Err(e) => (before.0, Err(e))
        case Ok(code) =>
          var sent := before.0 + [TypeCmd(address, id, code)];
          match ChannelOf(address, id, c)
          case Err(e) => (sent, Err(e))
          case Ok(ch) => (sent, Ok(before.1.value + [ch]))
  }

  /** A walk that gets through configures channel i from record i and sets its type from that record. */
  lemma {:induction false} WalkChannels(address: string, sensors: seq<(int, TcCfg)>, i: nat)
    requires Walk(address, sensors).1.Ok?
    requires i < |sensors|
    ensures SensorTypeCode(sensors[i].1.sensorType).Ok?
    ensures Walk(address, sensors).0[i] ==
      TypeCmd(address, sensors[i].0, SensorTypeCode(sensors[i].1.sensorType).value)
    ensures Ok(Walk(address, sensors).1.value[i]) == ChannelOf(address, sensors[i].0, sensors[i].1)
  {
    if i < |sensors| - 1 {
      WalkChannels(address, sensors[..|sensors| - 1], i);
    }
  }

  /** The header labels of the channels, in order. */
  function Labels(chs: seq<Channel>): (r: seq<string>)
    ensures |r| == |chs| && forall i :: 0 <= i < |chs| ==> r[i] == chs[i].column
  {
    if |chs| == 0 then [] else Labels(chs[..|chs| - 1]) + [chs[|chs| - 1].column]
  }

  function Ids(chs: seq<Channel>): (r: seq<int>)
    ensures |r| == |chs| && forall i :: 0 <= i < |chs| ==> r[i] == chs[i].id
  {
    if |chs| == 0 then [] else Ids(chs[..|chs| - 1]) + [chs[|chs| - 1].id]
  }

  /** sensors2read: each channel's id mapped to its read entry. */
  function Table(chs: seq<Channel>): (r: map<int, ReadSpec>)
  {
    if |chs| == 0 then map[] else Table(chs[..|chs| - 1])[chs[|chs| - 1].id := chs[|chs| - 1].spec]
  }

  /** The table has exactly the channel ids as keys. */
  lemma {:induction false} TableKeys(chs: seq<Channel>)
    ensures forall id :: id in Table(chs) <==> id in Ids(chs)
  {
    if |chs| > 0 {
      var init := chs[..|chs| - 1];
      TableKeys(init);
      assert Ids(chs) == Ids(init) + [chs[|chs| - 1].id];
    }
  }

  /** With distinct ids, each channel's id maps to its own read entry. */
  lemma {:induction false} TableAt(chs: seq<Channel>, i: nat)
    requires Distinct(Ids(chs))
    requires i < |chs|
    ensures chs[i].id in Table(chs) && Table(chs)[chs[i].id] == chs[i].spec
  {
    var n := |chs| - 1;
    if i < n {
      var init := chs[..n];
      assert Ids(init) == Ids(chs)[..n];
      TableAt(init, i);
      assert Ids(chs)[i] != Ids(chs)[n];
    }
  }

  /** sorted(ids) for ids within 1..n: the members of the set, ascending. */
  function AscendingUpTo(s: set<int>, n: nat): (r: seq<int>)
    ensures forall i :: 0 <= i < |r| ==> 1 <= r[i] <= n && r[i] in s
    ensures forall i, j :: 0 <= i < j < |r| ==> r[i] < r[j]
  {
    if n == 0 then [] else AscendingUpTo(s, n - 1) + (if n in s then [n] else [])
  }

  /** Every member of s within 1..n is listed. */
  lemma {:induction false} AscendingUpToComplete(s: set<int>, n: nat, x: int)
    requires x in s && 1 <= x <= n
    ensures x in AscendingUpTo(s, n)
  {
    if x < n {
      AscendingUpToComplete(s, n - 1, x);
    }
  }

  /**
   * The layout invariant of a configured board: one header label per configured id in
   * configuration order, naming that id and whether it is read as heat flux; a read entry
   * for exactly the configured ids; and sensor_ids the same ids in ascending order.
   */
  ghost predicate Laid(address: string, header: seq<string>, order: seq<int>, table: map<int, ReadSpec>,
                       sensorIds: seq<int>)
  {
    && |header| == |order|
    && Distinct(order)
    && (forall id :: id in table <==> id in order)
    && (forall i :: 0 <= i < |order| ==>
          header[i] == Label(KindOf(table[order[i]]), order[i], address))
    && sensorIds == AscendingUpTo(table.Keys, MaxChannel)
    && (forall i :: 0 <= i < |order| ==> 1 <= order[i] <= MaxChannel)
  }

  predicate IdsInRange(sensors: seq<(int, TcCfg)>) {
    forall i :: 0 <= i < |sensors| ==> 1 <= sensors[i].0 <= MaxChannel
  }

  /** The name a board gets when the configuration gives none (or an empty one). */
  function DefaultName(cfg: TcConfig): string {
    if cfg.name.None? || cfg.name.value == "" then "TCHAT" + IntToString(cfg.stack) else cfg.name.value
  }

  /**
   * The checks __init__ makes before its sensor loop, in order: the stack level, its
   * presence in the tool's listing, the device contract, at least one sensor, ids 1..8.
   */
  function Validate(cfg: TcConfig, listing: string): (r: Result<DeviceInfo, Fault>)
    ensures r.Ok? <==>
      && 0 <= cfg.stack <= MaxStack
      && ListedStacks(listing).Ok? && IntToString(cfg.stack) in ListedStacks(listing).value
      && cfg.samplingMs > 0 && |cfg.sensors| > 0 && IdsInRange(cfg.sensors)
    ensures !(0 <= cfg.stack <= MaxStack) ==> r == Err(AssertionError(StackOutOfRange))
    ensures r.Ok? ==> r.value == DeviceInfo(DefaultName(cfg), cfg.samplingMs, [])
  {
    if !(0 <= cfg.stack <= MaxStack) then Err(AssertionError(StackOutOfRange))
    else
      match ListedStacks(listing)
      case Err(e) => Err(e)
      case Ok(stacks) =>
        if IntToString(cfg.stack) !in stacks then Err(AssertionError(StackNotListed))
        else
          match InitDevice(DefaultName(cfg), cfg.samplingMs)
          case Err(e) => Err(e)
          case Ok(info) =>
            if |cfg.sensors| == 0 then Err(AssertionError(NoSensors))
            else if !IdsInRange(cfg.sensors) then Err(AssertionError(SensorIdOutOfRange))
            else Ok(info)
  }

  /** The sensor loop and the fields it leaves, for a board that passed Validate. */
  function Build(info: DeviceInfo, address: string, sensors: seq<(int, TcCfg)>): (seq<seq<string>>, Result<TcSetup, Fault>) {
    var w := Walk(address, sensors);
    match w.1
    case Err(e) => (w.0, Err(e))
    case Ok(chs) =>
      (w.0, Ok(TcSetup(info.(header := Labels(chs)), address, |sensors|,
                       AscendingUpTo(Table(chs).Keys, MaxChannel), Ids(chs), Table(chs))))
  }

  /** __init__ as a whole: the type commands it runs and the exception it raises first, or the fields it sets. */
  function Expected(cfg: TcConfig, listing: string): (seq<seq<string>>, Result<TcSetup, Fault>) {
    match Validate(cfg, listing)
    case Err(e) => ([], Err(e))
    case Ok(info) => Build(info, IntToString(cfg.stack), cfg.sensors)
  }

  /**
   * A board built from distinct ids in 1..8: one type command per sensor, the header
   * and the read order follow the configuration order, and the layout invariant holds.
   */
  lemma BuildLaid(info: DeviceInfo, address: string, sensors: seq<(int, TcCfg)>)
    requires DistinctKeys(sensors) && IdsInRange(sensors)
    requires Build(info, address, sensors).1.Ok?
    ensures var s := Build(info, address, sensors).1.value;
      && s.Valid()
      && s.address == address
      && s.order == seq(|sensors|, i requires 0 <= i < |sensors| => sensors[i].0)
      && |Build(info, address, sensors).0| == |sensors|
  {
    var chs := Walk(address, sensors).1.value;
    forall i | 0 <= i < |chs|
      ensures Shaped(address, chs[i]) && 1 <= chs[i].id <= MaxChannel
    {
      WalkChannels(address, sensors, i);
    }
    WalkIds(address, sensors);
    ChannelsLaid(address, chs);
  }

  /** A channel whose label names its id and says q exactly when it is read in millivolts. */
  predicate Shaped(address: string, ch: Channel) {
    ch.column == Label(KindOf(ch.spec), ch.id, address)
  }

  /** Channels with distinct ids in 1..8, each labelled by its kind, lay out a board. */
  lemma ChannelsLaid(address: string, chs: seq<Channel>)
    requires Distinct(Ids(chs))
    requires forall i :: 0 <= i < |chs| ==> Shaped(address, chs[i]) && 1 <= chs[i].id <= MaxChannel
    ensures |Labels(chs)| == |Ids(chs)|
    ensures forall id :: id in Table(chs) <==> id in Ids(chs)
    ensures forall i :: 0 <= i < |Ids(chs)| ==> Labels(chs)[i] == Label(KindOf(Table(chs)[Ids(chs)[i]]), Ids(chs)[i], address)
    ensures forall i :: 0 <= i < |Ids(chs)| ==> 1 <= Ids(chs)[i] <= MaxChannel
  {
    forall i | 0 <= i < |chs|
      ensures Ids(chs)[i] in Table(chs)
      ensures Labels(chs)[i] == Label(KindOf(Table(chs)[Ids(chs)[i]]), Ids(chs)[i], address)
    {
      TableAt(chs, i);
      ChannelLabel(address, chs, i);
    }
    var order, table := Ids(chs), Table(chs);
    assert forall id :: id in table <==> id in order by {
      TableKeys(chs);
    }
    forall i | 0 <= i < |order|
      ensures 1 <= order[i] <= MaxChannel
    {
      assert order[i] == chs[i].id;
    }
  }

  /** Channel i's label is the one its read entry in the table calls for. */
  lemma ChannelLabel(address: string, chs: seq<Channel>, i: nat)
    requires Distinct(Ids(chs))
    requires i < |chs| && Shaped(address, chs[i]) && Ids(chs)[i] in Table(chs)
    ensures Labels(chs)[i] == Label(KindOf(Table(chs)[Ids(chs)[i]]), Ids(chs)[i], address)
  {
    TableAt(chs, i);
  }

  /**
   * Record i of an accepted configuration: its type was set with the code of its type
   * name, and header[i] and the read entry of its id are the label and the entry
   * ChannelOf gives that record (heat flux or temperature, and the coefficient).
   */
  lemma BuildChannel(info: DeviceInfo, address: string, sensors: seq<(int, TcCfg)>, i: nat)
    requires DistinctKeys(sensors) && IdsInRange(sensors)
    requires Build(info, address, sensors).1.Ok?
    requires i < |sensors|
    ensures var s := Build(info, address, sensors).1.value; var id := sensors[i].0; var c := sensors[i].1;
      && id in s.table
      && ChannelOf(address, id, c) == Ok(Channel(id, s.table[id], s.info.header[i]))
      && SensorTypeCode(c.sensorType).Ok?
      && Build(info, address, sensors).0[i] == TypeCmd(address, id, SensorTypeCode(c.sensorType).value)
  {
    var chs := Walk(address, sensors).1.value;
    var s := Build(info, address, sensors).1.value;
    var id := sensors[i].0;
    WalkChannels(address, sensors, i);
    var ch := chs[i];
    WalkIds(address, sensors);
    TableAt(chs, i);
    assert s.table[id] == ch.spec && s.info.header[i] == ch.column;
  }

  /** A walk that gets through configures the records' ids in configuration order. */
  lemma WalkIds(address: string, sensors: seq<(int, TcCfg)>)
    requires Walk(address, sensors).1.Ok?
    ensures Ids(Walk(address, sensors).1.value) == seq(|sensors|, i requires 0 <= i < |sensors| => sensors[i].0)
  {
    forall i | 0 <= i < |sensors|
      ensures Walk(address, sensors).1.value[i].id == sensors[i].0
    {
      WalkChannels(address, sensors, i);
    }
  }

  /** TCHAT.__init__ without the tool probe and the precheck: validation, then the sensor loop. */
  method Configure(cfg: TcConfig, listing: string) returns (sent: seq<seq<string>>, r: Result<TcSetup, Fault>)
    requires DistinctKeys(cfg.sensors)
    ensures (sent, r) == Expected(cfg, listing)
    ensures r.Ok? ==> r.value.Valid()
  {
    sent := [];
    if !(0 <= cfg.stack <= MaxStack) {
      return sent, Err(AssertionError(StackOutOfRange));
    }
    var stacks := ListedStacks(listing);
    if stacks.Err? {
      return sent, Err(stacks.error);
    }
    if IntToString(cfg.stack) !in stacks.value {
      return sent, Err(AssertionError(StackNotListed));
    }
    var init := InitDevice(DefaultName(cfg), cfg.samplingMs);
    if init.Err? {
      return sent, Err(init.error);
    }
    var sensors := cfg.sensors;
    if |sensors| == 0 {
      return sent, Err(AssertionError(NoSensors));
    }
    if exists i :: 0 <= i < |sensors| && !(1 <= sensors[i].0 <= MaxChannel) {
      return sent, Err(AssertionError(SensorIdOutOfRange));
    }
    var address := IntToString(cfg.stack);
    var header, table, order;
    sent, header, table, order := ConfigureSensors(address, sensors);
    if header.Err? {
      return sent, Err(header.error);
    }
    r := Ok(TcSetup(init.value.(header := header.value), address, |sensors|,
                    AscendingUpTo(table.Keys, MaxChannel), order, table));
    BuildLaid(init.value, address, sensors);
  }

  /**
   * The sensor loop of __init__: per record, set its type, then append its label to the
   * header and its entry to sensors2read.
   */
  method ConfigureSensors(address: string, sensors: seq<(int, TcCfg)>)
    returns (sent: seq<seq<string>>, header: Result<seq<string>, Fault>, table: map<int, ReadSpec>, order: seq<int>)
    ensures sent == Walk(address, sensors).0
    ensures header.Err? <==> Walk(address, sensors).1.Err?
    ensures header.Err? ==> header.error == Walk(address, sensors).1.error
    ensures header.Ok? ==> var chs := Walk(address, sensors).1.value;
      header.value == Labels(chs) && table == Table(chs) && order == Ids(chs)
  {
    sent := [];
    var labels: seq<string> := [];
    table := map[];
    order := [];
    ghost var chs: seq<Channel> := [];
    for i := 0 to |sensors|
      invariant WalkedTo(address, sensors, i, sent, chs, labels, table, order)
    {
      var fault: Option<Fault>;
      fault, sent, chs, labels, table, order := SensorStep(address, sensors, i, sent, chs, labels, table, order);
      if fault.Some? {
        header := Err(fault.value);
        return;
      }
    }
    assert sensors[..|sensors|] == sensors;
    header := Ok(labels);
  }

  /** The sensor loop after i records: their commands sent, their labels, entries and ids collected. */
  predicate WalkedTo(address: string, sensors: seq<(int, TcCfg)>, i: nat, sent: seq<seq<string>>, chs: seq<Channel>,
                     labels: seq<string>, table: map<int, ReadSpec>, order: seq<int>)
  {
    && i <= |sensors|
    && Walk(address, sensors[..i]) == (sent, Ok(chs))
    && labels == Labels(chs) && table == Table(chs) && order == Ids(chs)
  }

  /** One pass of the sensor loop: record i's type set, then its label and entry added, or its exception. */
  method SensorStep(address: string, sensors: seq<(int, TcCfg)>, i: nat, sent: seq<seq<string>>, ghost chs: seq<Channel>,
                    labels: seq<string>, table: map<int, ReadSpec>, order: seq<int>)
    returns (fault: Option<Fault>, sent': seq<seq<string>>, ghost chs': seq<Channel>,
             labels': seq<string>, table': map<int, ReadSpec>, order': seq<int>)
    requires i < |sensors| && WalkedTo(address, sensors, i, sent, chs, labels, table, order)
    ensures fault.Some? ==> Walk(address, sensors) == (sent', Err(fault.value))
    ensures fault.None? ==> WalkedTo(address, sensors, i + 1, sent', chs', labels', table', order')
  {
    chs', labels', table', order' := chs, labels, table, order;
    var (id, c) := sensors[i];
    assert sensors[..i + 1][..i] == sensors[..i];
    var code := SensorTypeCode(c.sensorType);
    if code.Err? {
      WalkStops(address, sensors, i + 1);
      return Some(code.error), sent, chs, labels, table, order;
    }
    sent' := sent + [TypeCmd(address, id, code.value)];
    var ch := SensorChannel(address, id, c);
    if ch.Err? {
      WalkStops(address, sensors, i + 1);
      return Some(ch.error), sent', chs, labels, table, order;
    }
    labels' := labels + [ch.value.column];
    table' := table[id := ch.value.spec];
    order' := order + [id];
    chs' := chs + [ch.value];
    assert chs'[..|chs'| - 1] == chs;
    fault := None;
  }

  /**
   * The checks of one record after its type is set: with q on, s_value must be present
   * and positive, and the reading is scaled by 1000 / s_value.
   */
  method SensorChannel(address: string, id: int, c: TcCfg) returns (r: Result<Channel, Fault>)
    ensures r == ChannelOf(address, id, c)
  {
    if QOn(c) {
      if c.sValue.Absent? {
        return Err(KeyError);
      }
      if c.sValue.Null? || c.sValue.v <= 0.0 {
        return Err(ValueError(SValueNotPositive));
      }
      return Ok(Channel(id, ReadSpec("readmv", Coefficient(c.sValue.v)), Label('q', id, address)));
    }
    return Ok(Channel(id, ReadSpec("read", 1.0), Label('T', id, address)));
  }

  /** Once the walk of a prefix stops with an exception, the walk of the whole list stops with it too. */
  lemma {:induction false} WalkStops(address: string, sensors: seq<(int, TcCfg)>, n: nat)
    requires n <= |sensors|
    requires Walk(address, sensors[..n]).1.Err?
    ensures Walk(address, sensors) == Walk(address, sensors[..n])
    decreases |sensors| - n
  {
    if n < |sensors| {
      assert sensors[..|sensors| - 1][..n] == sensors[..n];
      WalkStops(address, sensors[..|sensors| - 1], n);
    } else {
      assert sensors[..n] == sensors;
    }
  }

  /** The tool command that reads channel id with its entry. */
  function ReadCmd(address: string, id: int, spec: ReadSpec): seq<string> {
    [Tool, address, spec.cmd, IntToString(id)]
  }

  /** The read commands for the channels in the given order. */
  function ReadCmds(address: string, ids: seq<int>, table: map<int, ReadSpec>): (r: seq<seq<string>>)
    requires forall i :: 0 <= i < |ids| ==> ids[i] in table
    ensures |r| == |ids| && forall i :: 0 <= i < |ids| ==> r[i] == ReadCmd(address, ids[i], table[ids[i]])
  {
    if |ids| == 0 then [] else ReadCmds(address, ids[..|ids| - 1], table) + [ReadCmd(address, ids[|ids| - 1], table[ids[|ids| - 1]])]
  }

  /** float() applied to each tool output. */
  function Floats(outputs: seq<string>): (r: seq<Option<real>>)
    ensures |r| == |outputs|
  {
    Map(ParseReal, outputs)
  }

  /** A reading times its channel's coefficient. */
  function Scale(x: real, coeff: real): real {
    x * coeff
  }

  /**
   * float(output) * coeff for each channel in order, over the parsed outputs; the first
   * output that is not a number raises ValueError.
   */
  function Scaled(ids: seq<int>, table: map<int, ReadSpec>, parsed: seq<Option<real>>): (r: Result<seq<real>, Fault>)
    requires |parsed| == |ids| && forall i :: 0 <= i < |ids| ==> ids[i] in table
    ensures r.Ok? ==> |r.value| == |ids|
  {
    if |ids| == 0 then Ok([])
    else
      var n := |ids| - 1;
      match Scaled(ids[..n], table, parsed[..n])
      case Err(e) => Err(e)
      case Ok(vs) =>
        match parsed[n]
        case None => Err(ValueError(NotANumber))
        case Some(x) => Ok(vs + [Scale(x, table[ids[n]].coeff)])
  }

  /** A round succeeds exactly when every output is a number; otherwise float() raises ValueError. */
  lemma {:induction false} ScaledOk(ids: seq<int>, table: map<int, ReadSpec>, parsed: seq<Option<real>>)
    requires |parsed| == |ids| && forall i :: 0 <= i < |ids| ==> ids[i] in table
    ensures Scaled(ids, table, parsed).Ok? <==> forall i :: 0 <= i < |parsed| ==> parsed[i].Some?
    ensures Scaled(ids, table, parsed).Err? ==> Scaled(ids, table, parsed).error == ValueError(NotANumber)
  {
    if |ids| > 0 {
      var n := |ids| - 1;
      ScaledOk(ids[..n], table, parsed[..n]);
      assert forall i :: 0 <= i < n ==> parsed[..n][i] == parsed[i];
    }
  }

  /** In a round that succeeds, value i is output i times the coefficient of channel i. */
  lemma {:induction false} ScaledValues(ids: seq<int>, table: map<int, ReadSpec>, parsed: seq<Option<real>>, i: nat)
    requires |parsed| == |ids| && forall i :: 0 <= i < |ids| ==> ids[i] in table
    requires Scaled(ids, table, parsed).Ok?
    requires i < |ids|
    ensures parsed[i].Some?
    ensures Scaled(ids, table, parsed).value[i] == Scale(parsed[i].value, table[ids[i]].coeff)
  {
    var n := |ids| - 1;
    if i < n {
      ScaledValues(ids[..n], table, parsed[..n], i);
      assert parsed[..n][i] == parsed[i] && ids[..n][i] == ids[i];
    }
  }

  /**
   * Where a round that raised stopped: the commands of the channels up to the one whose
   * output is not a number, every earlier output being one.
   */
  predicate StoppedAt(address: string, ids: seq<int>, table: map<int, ReadSpec>, outputs: seq<string>, sent: seq<seq<string>>)
    requires |outputs| == |ids| && forall i :: 0 <= i < |ids| ==> ids[i] in table
  {
    && 1 <= |sent| <= |ids|
    && sent == ReadCmds(address, ids[..|sent|], table)
    && Floats(outputs)[|sent| - 1].None?
    && forall j :: 0 <= j < |sent| - 1 ==> Floats(outputs)[j].Some?
  }

  /** A round stopped at a channel: float() refused that channel's output and accepted the earlier ones. */
  lemma StoppedAtOutputs(address: string, ids: seq<int>, table: map<int, ReadSpec>, outputs: seq<string>, sent: seq<seq<string>>)
    requires |outputs| == |ids| && forall i :: 0 <= i < |ids| ==> ids[i] in table
    requires StoppedAt(address, ids, table, outputs, sent)
    ensures ParseReal(outputs[|sent| - 1]).None?
    ensures forall j :: 0 <= j < |sent| - 1 ==> ParseReal(outputs[j]).Some?
  {
    MapAt(ParseReal, outputs, |sent| - 1);
    forall j | 0 <= j < |sent| - 1
      ensures ParseReal(outputs[j]).Some?
    {
      MapAt(ParseReal, outputs, j);
    }
  }

  /** The order read_data as written reads in: sensor_ids, ascending. */
  function ReadOrderAsWritten(s: TcSetup): seq<int> {
    s.sensorIds
  }

  /** Sensors 1 (q on), 3 (q on) and 2 (q off) of the board's own example, in that order. */
  const ExampleSensors: seq<(int, TcCfg)> := [(1, TcCfg(Absent, Given(true), Given(18.97))),
                                              (3, TcCfg(Absent, Given(true), Given(18.32))),
                                              (2, TcCfg(Absent, Given(false), Null))]

  /**
   * On stack 0 with the example sensors, the header's second column is q3, but read_data
   * as written runs its second read on channel 2, unscaled, and logs it under q3.
   */
  lemma ReadOrderAsWrittenMislabels(info: DeviceInfo)
    ensures var b := Build(info, "0", ExampleSensors);
      && b.1.Ok?
      && b.1.value.info.header[1] == Label('q', 3, "0")
      && ReadOrderAsWritten(b.1.value) == [1, 2, 3]
      && b.1.value.table.Keys == {1, 2, 3}
      && ReadCmds("0", ReadOrderAsWritten(b.1.value), b.1.value.table)[1] == ReadCmd("0", 2, ReadSpec("read", 1.0))
  {
    ExampleBuild(info);
    ExampleKeys(Build(info, "0", ExampleSensors).1.value);
  }

  /** The example sensors build a board read in the order 1, 3, 2 with q3 second and channel 2 plain. */
  lemma ExampleBuild(info: DeviceInfo)
    ensures var b := Build(info, "0", ExampleSensors);
      && b.1.Ok?
      && b.1.value.Valid()
      && b.1.value.order == [1, 3, 2]
      && b.1.value.info.header[1] == Label('q', 3, "0")
      && 2 in b.1.value.table && b.1.value.table[2] == ReadSpec("read", 1.0)
  {
    var sensors := ExampleSensors;
    ExampleWalks();
    assert DistinctKeys(sensors) && IdsInRange(sensors);
    BuildLaid(info, "0", sensors);
    BuildChannel(info, "0", sensors, 1);
    BuildChannel(info, "0", sensors, 2);
  }

  /** A board read in the order 1, 3, 2 has read entries for 1..3 and sensor_ids [1, 2, 3]. */
  lemma ExampleKeys(s: TcSetup)
    requires s.Valid() && s.order == [1, 3, 2]
    ensures s.table.Keys == {1, 2, 3} && s.sensorIds == [1, 2, 3]
  {
    assert s.table.Keys == {1, 2, 3} by {
      assert forall id :: id in s.table <==> id in [1, 3, 2];
    }
    AscendingExample();
  }

  /** The sensor loop gets through the example sensors. */
  lemma ExampleWalks()
    ensures Walk("0", ExampleSensors).1.Ok?
  {
    var sensors := ExampleSensors;
    assert sensors[..2][..1] == sensors[..1];
    assert sensors[..3][..2] == sensors[..2];
    assert sensors[..3] == sensors;
    assert Walk("0", sensors[..1]).1.Ok?;
    assert Walk("0", sensors[..2]).1.Ok?;
  }

  /** sorted() of the example ids. */
  lemma AscendingExample()
    ensures AscendingUpTo({1, 2, 3}, MaxChannel) == [1, 2, 3]
  {
    var k: set<int> := {1, 2, 3};
    assert AscendingUpTo(k, 1) == [1];
    assert AscendingUpTo(k, 2) == [1, 2];
    assert AscendingUpTo(k, 3) == [1, 2, 3];
    AscendingUpToAbove(k, 3, MaxChannel);
  }

  /** Past the largest member of s the listing grows no more. */
  lemma {:induction false} AscendingUpToAbove(s: set<int>, n: nat, m: nat)
    requires n <= m
    requires forall x :: x in s ==> x <= n
    ensures AscendingUpTo(s, m) == AscendingUpTo(s, n)
    decreases m - n
  {
    if n < m {
      AscendingUpToAbove(s, n, m - 1);
    }
  }

  /** The listing up to n is a prefix of the listing up to any m >= n. */
  lemma {:induction false} AscendingUpToPrefix(s: set<int>, n: nat, m: nat)
    requires n <= m
    ensures |AscendingUpTo(s, n)| <= |AscendingUpTo(s, m)|
    ensures AscendingUpTo(s, m)[..|AscendingUpTo(s, n)|] == AscendingUpTo(s, n)
    decreases m - n
  {
    if n < m {
      AscendingUpToPrefix(s, n, m - 1);
      assert AscendingUpTo(s, m)[..|AscendingUpTo(s, m - 1)|] == AscendingUpTo(s, m - 1);
    }
  }

  /**
   * One reading round: for each channel in the given order, send its read command and
   * scale its output; the first output that is not a number stops the round.
   */
  method ReadRound(address: string, ids: seq<int>, table: map<int, ReadSpec>, outputs: seq<string>)
      returns (sent: seq<seq<string>>, r: Result<seq<real>, Fault>)
    requires |outputs| == |ids| && forall i :: 0 <= i < |ids| ==> ids[i] in table
    ensures r == Scaled(ids, table, Floats(outputs))
    ensures r.Ok? ==> |r.value| == |ids| && sent == ReadCmds(address, ids, table)
    ensures r.Err? ==> StoppedAt(address, ids, table, outputs, sent)
  {
    sent := [];
    var out: seq<real> := [];
    var parsed := Floats(outputs);
    for i := 0 to |ids|
      invariant |sent| == i && |out| == i
      invariant forall j :: 0 <= j < i ==> sent[j] == ReadCmd(address, ids[j], table[ids[j]])
      invariant forall j :: 0 <= j < i ==> parsed[j].Some? && out[j] == Scale(parsed[j].value, table[ids[j]].coeff)
    {
      var spec := table[ids[i]];
      sent := sent + [ReadCmd(address, ids[i], spec)];
      if parsed[i].None? {
        RoundStopped(address, ids, table, outputs, sent);
        return sent, Err(ValueError(NotANumber));
      }
      out := out + [Scale(parsed[i].value, spec.coeff)];
    }
    RoundDone(address, ids, table, parsed, sent, out);
    r := Ok(out);
  }

  /** A round through every channel: its commands, and its values scaled from every output. */
  lemma RoundDone(address: string, ids: seq<int>, table: map<int, ReadSpec>, parsed: seq<Option<real>>,
                  sent: seq<seq<string>>, out: seq<real>)
    requires |parsed| == |ids| && forall i :: 0 <= i < |ids| ==> ids[i] in table
    requires |sent| == |ids| && |out| == |ids|
    requires forall j :: 0 <= j < |ids| ==> sent[j] == ReadCmd(address, ids[j], table[ids[j]])
    requires forall j :: 0 <= j < |ids| ==> parsed[j].Some? && out[j] == Scale(parsed[j].value, table[ids[j]].coeff)
    ensures Scaled(ids, table, parsed) == Ok(out)
    ensures sent == ReadCmds(address, ids, table)
  {
    ScaledOk(ids, table, parsed);
    forall j | 0 <= j < |ids|
      ensures Scaled(ids, table, parsed).value[j] == out[j]
    {
      ScaledValues(ids, table, parsed, j);
    }
    assert Scaled(ids, table, parsed).value == out;
  }

  /** A round whose last command's output is not a number, all earlier ones being numbers. */
  lemma RoundStopped(address: string, ids: seq<int>, table: map<int, ReadSpec>, outputs: seq<string>,
                     sent: seq<seq<string>>)
    requires |outputs| == |ids| && forall i :: 0 <= i < |ids| ==> ids[i] in table
    requires 1 <= |sent| <= |ids|
    requires forall j :: 0 <= j < |sent| ==> sent[j] == ReadCmd(address, ids[j], table[ids[j]])
    requires Floats(outputs)[|sent| - 1].None?
    requires forall j :: 0 <= j < |sent| - 1 ==> Floats(outputs)[j].Some?
    ensures Scaled(ids, table, Floats(outputs)) == Err(ValueError(NotANumber))
    ensures StoppedAt(address, ids, table, outputs, sent)
  {
    ScaledOk(ids, table, Floats(outputs));
    assert sent == ReadCmds(address, ids[..|sent|], table);
  }

  class TCHAT {
    const name: string
    const samplingMs: int
    const header: seq<string>
    const address: string
    const numSensors: nat
    const sensorIds: seq<int>
    /** the configured ids in header order */
    const order: seq<int>
    const sensors2read: map<int, ReadSpec>

    ghost predicate Valid() {
      Laid(address, header, order, sensors2read, sensorIds)
    }

    /** Stores what Configure built. */
    constructor (s: TcSetup)
      requires s.Valid()
      ensures Valid()
      ensures name == s.info.name && samplingMs == s.info.samplingMs && header == s.info.header
      ensures address == s.address && numSensors == s.numSensors && sensorIds == s.sensorIds
      ensures order == s.order && sensors2read == s.table
    {
      name := s.info.name;
      samplingMs := s.info.samplingMs;
      header := s.info.header;
      address := s.address;
      numSensors := s.numSensors;
      sensorIds := s.sensorIds;
      order := s.order;
      sensors2read := s.table;
    }

    /**
     * read_data over the tool's outputs, one per channel: one read command per channel in
     * header order, and value i is channel i's output scaled by its coefficient, so it
     * belongs to the column header[i] names.
     */
    method ReadData(outputs: seq<string>) returns (sent: seq<seq<string>>, r: Result<seq<real>, Fault>)
      requires Valid()
      requires |outputs| == |order|
      ensures r == Scaled(order, sensors2read, Floats(outputs))
      ensures r.Ok? ==> |r.value| == |header| && sent == ReadCmds(address, order, sensors2read)
      ensures r.Err? ==>
        && 1 <= |sent| <= |order|
        && sent == ReadCmds(address, order[..|sent|], sensors2read)
        && ParseReal(outputs[|sent| - 1]).None?
        && forall j :: 0 <= j < |sent| - 1 ==> ParseReal(outputs[j]).Some?
    {
      sent, r := ReadRound(address, order, sensors2read, outputs);
      if r.Err? {
        StoppedAtOutputs(address, order, sensors2read, outputs, sent);
      }
    }
  }
}
