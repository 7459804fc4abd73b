/**
 * The FluxDAQ heat-flux logger: configuration of its ports from a sensor map, decoding
 * of one comma-separated report line, and the precheck acceptance rule.
 *
 * The logger reports two fields per sensor slot, q then T, for slots 1 up to the
 * largest configured id; only the active ones reach the reading.
 */
module FluxDaq {
  import opened Wrappers
  import opened Text
  import opened Base

  /** The largest sensor id the logger knows. */
  const MaxSensorId := 4

  /** One sensor record of the configuration: its q and s_value keys, and whether it has others. */
  datatype SensorCfg = SensorCfg(q: Field<bool>, sValue: Field<real>, hasId: bool, otherKeys: bool)

  /** An entry of s_list: inf for a slot without heat flux, the sensor's s value otherwise. */
  datatype SVal = Inf | Fin(x: real)

  /** What a slot contributes: nothing, a temperature, or heat flux and temperature. */
  datatype Port = Unused | TOnly | QAndT(s: real)

  datatype FluxConfig = FluxConfig(
    daqType: string,
    name: Option<string>,
    samplingMs: int,
    /** sensor id to its record (the record may be null); ids are distinct */
    sensors: seq<(int, Option<SensorCfg>)>)

  /** What __init__ leaves in the fields of a FluxDAQ. */
  datatype FluxSetup = FluxSetup(
    info: DeviceInfo,
    daqType: string,
    numSensors: nat,
    report: nat,
    activePorts: seq<bool>,
    sList: seq<SVal>)
  {
    ghost predicate Valid() {
      && |activePorts| == 2 * report
      && |sList| == report
      && info.header == ActiveNames(activePorts)
    }
  }

  function Ids(sensors: seq<(int, Option<SensorCfg>)>): set<int> {
    set i | 0 <= i < |sensors| :: sensors[i].0
  }

  /** sensors.get(id): the record configured under id, if any. */
  function Find(sensors: seq<(int, Option<SensorCfg>)>, id: int): (r: Option<Option<SensorCfg>>)
    ensures r.Some? <==> id in Ids(sensors)
    ensures r.Some? ==> exists i :: 0 <= i < |sensors| && sensors[i] == (id, r.value)
  {
    if |sensors| == 0 then None
    else if sensors[|sensors| - 1].0 == id then Some(sensors[|sensors| - 1].1)
    else
      var r := Find(sensors[..|sensors| - 1], id);
      assert Ids(sensors) == Ids(sensors[..|sensors| - 1]) + {sensors[|sensors| - 1].0};
      r
  }

  /** The record configured under id, null when there is none. */
  function Record(sensors: seq<(int, Option<SensorCfg>)>, id: int): Option<SensorCfg> {
    match Find(sensors, id)
    case Some(c) => c
    case None => None
  }

  /** The largest configured id (sensor_ids[-1]). */
  function MaxId(sensors: seq<(int, Option<SensorCfg>)>): (r: int)
    requires |sensors| > 0
    ensures r in Ids(sensors)
    ensures forall id :: id in Ids(sensors) ==> id <= r
  {
    var last := sensors[|sensors| - 1].0;
    if |sensors| == 1 then last
    else
      var m := MaxId(sensors[..|sensors| - 1]);
      assert Ids(sensors) == Ids(sensors[..|sensors| - 1]) + {last};
      if last > m then last else m
  }

  /** A record that Python finds falsy: null, or a dict with no keys at all. */
  predicate Falsy(c: Option<SensorCfg>) {
    c.None? || (c.value.q.Absent? && c.value.sValue.Absent? && !c.value.hasId && !c.value.otherKeys)
  }

  predicate QEnabled(c: SensorCfg) {
    c.q == Given(true)
  }

  /** How __init__ treats the record of one configured id, or the exception it raises. */
  function PortOf(c: Option<SensorCfg>): Result<Port, Fault> {
    if Falsy(c) then Err(ValueError(MissingSensorInfo))
    else if c.value.q.Absent? then Err(KeyError)
    else if !QEnabled(c.value) then Ok(TOnly)
    else if c.value.sValue.Absent? then Err(KeyError)
    else if c.value.sValue.Null? || c.value.sValue.v <= 0.0 then
      // the error message itself looks up sensor['id']
      Err(if c.value.hasId then ValueError(SValueNotPositive) else KeyError)
    else Ok(QAndT(c.value.sValue.v))
  }

  /** A configured record is accepted exactly when it has q and, with q on, a positive s value. */
  lemma PortOfAccepts(c: Option<SensorCfg>)
    ensures PortOf(c).Ok? <==>
      !Falsy(c) && !c.value.q.Absent?
      && (QEnabled(c.value) ==> c.value.sValue.Given? && c.value.sValue.v > 0.0)
    ensures PortOf(c).Ok? ==> !PortOf(c).value.Unused?
    ensures PortOf(c).Ok? ==> (PortOf(c).value.QAndT? <==> QEnabled(c.value))
    ensures PortOf(c).Ok? && PortOf(c).value.QAndT? ==> PortOf(c).value.s == c.value.sValue.v > 0.0
  {
  }

  /** The ports of slots 1..n, in slot order, or the first exception met on the way. */
  function PortsUpTo(sensors: seq<(int, Option<SensorCfg>)>, n: nat): (r: Result<seq<Port>, Fault>)
    ensures r.Ok? ==> |r.value| == n
  {
    if n == 0 then Ok([])
    else
      match PortsUpTo(sensors, n - 1)
      case Err(e) => Err(e)
      case Ok(ps) =>
        match Find(sensors, n)
        case None => Ok(ps + [Unused])
        case Some(c) =>
          match PortOf(c)
          case Err(e) => Err(e)
          case Ok(p) => Ok(ps + [p])
  }

  /** Once a slot raises, so does every longer prefix, with the same exception. */
  lemma {:induction false} ErrPersists(sensors: seq<(int, Option<SensorCfg>)>, n: nat, m: nat)
    requires n <= m
    requires PortsUpTo(sensors, n).Err?
    ensures PortsUpTo(sensors, m) == PortsUpTo(sensors, n)
    decreases m - n
  {
    if n < m {
      ErrPersists(sensors, n, m - 1);
    }
  }

  /** The header, the active-port mask and s_list, as __init__ leaves them. */
  datatype Layout = Layout(header: seq<string>, activePorts: seq<bool>, sList: seq<SVal>)

  /** The layout slots 1..report give, or the exception the first bad record raises. */
  function LayoutOf(sensors: seq<(int, Option<SensorCfg>)>, report: nat): Result<Layout, Fault> {
    match PortsUpTo(sensors, report)
    case Err(e) => Err(e)
    case Ok(ps) => Ok(Layout(NamesOf(ps), ActivePorts(ps), SList(ps)))
  }

  /** Slot id of PortsUpTo's result is unused iff id is not configured, and otherwise what its record says. */
  lemma {:induction false} PortsUpToMeaning(sensors: seq<(int, Option<SensorCfg>)>, n: nat, id: nat)
    requires PortsUpTo(sensors, n).Ok?
    requires 1 <= id <= n
    ensures Find(sensors, id).None? ==> PortsUpTo(sensors, n).value[id - 1] == Unused
    ensures Find(sensors, id).Some? ==>
      Ok(PortsUpTo(sensors, n).value[id - 1]) == PortOf(Find(sensors, id).value)
  {
    if id < n {
      PortsUpToMeaning(sensors, n - 1, id);
    }
  }

  /** The header names slot id contributes. */
  function SlotNames(id: int, p: Port): seq<string> {
    match p
    case Unused => []
    case TOnly => ["T" + IntToString(id)]
    case QAndT(_) => ["q" + IntToString(id), "T" + IntToString(id)]
  }

  /** The header __init__ appends, slot by slot. */
  function NamesOf(ps: seq<Port>): seq<string> {
    if |ps| == 0 then [] else NamesOf(ps[..|ps| - 1]) + SlotNames(|ps|, ps[|ps| - 1])
  }

  /** active_ports: port 2(id-1) carries q, port 2(id-1)+1 carries T. */
  function ActivePorts(ps: seq<Port>): (r: seq<bool>)
    ensures |r| == 2 * |ps|
  {
    if |ps| == 0 then []
    else ActivePorts(ps[..|ps| - 1]) + [ps[|ps| - 1].QAndT?, !ps[|ps| - 1].Unused?]
  }

  /** s_list: the s value of a slot with heat flux, inf for the rest. */
  function SList(ps: seq<Port>): (r: seq<SVal>)
    ensures |r| == |ps|
  {
    if |ps| == 0 then []
    else SList(ps[..|ps| - 1]) + [if ps[|ps| - 1].QAndT? then Fin(ps[|ps| - 1].s) else Inf]
  }

  lemma {:induction false} ActivePortsAt(ps: seq<Port>, id: nat)
    requires 1 <= id <= |ps|
    ensures ActivePorts(ps)[2 * (id - 1)] == ps[id - 1].QAndT?
    ensures ActivePorts(ps)[2 * (id - 1) + 1] == !ps[id - 1].Unused?
    ensures SList(ps)[id - 1] == if ps[id - 1].QAndT? then Fin(ps[id - 1].s) else Inf
  {
    if id < |ps| {
      ActivePortsAt(ps[..|ps| - 1], id);
    }
  }

  /** The channel name the logger reports at port p. */
  function PortName(p: nat): string {
    (if p % 2 == 0 then "q" else "T") + IntToString(p / 2 + 1)
  }

  /** The names of the active ports, in port order. */
  function ActiveNames(active: seq<bool>): seq<string> {
    if |active| == 0 then []
    else
      var init := ActiveNames(active[..|active| - 1]);
      init + (if active[|active| - 1] then [PortName(|active| - 1)] else [])
  }

  function CountTrue(active: seq<bool>): nat {
    if |active| == 0 then 0
    else CountTrue(active[..|active| - 1]) + (if active[|active| - 1] then 1 else 0)
  }

  lemma {:induction false} ActiveNamesCount(active: seq<bool>)
    ensures |ActiveNames(active)| == CountTrue(active)
  {
    if |active| > 0 {
      ActiveNamesCount(active[..|active| - 1]);
    }
  }

  lemma SeqAssoc<T>(p: seq<T>, q: seq<T>, r: seq<T>)
    ensures (p + q) + r == p + (q + r)
  {
  }

  /** Two more ports: their names follow the names of the ports before them. */
  lemma ActiveNamesSnoc2(a: seq<bool>, x: bool, y: bool)
    ensures ActiveNames(a + [x, y]) ==
      ActiveNames(a) + ((if x then [PortName(|a|)] else []) + (if y then [PortName(|a| + 1)] else []))
  {
    var b := a + [x, y];
    var qs: seq<string> := if x then [PortName(|a|)] else [];
    var ts: seq<string> := if y then [PortName(|a| + 1)] else [];
    assert b[..|b| - 1] == a + [x];
    assert (a + [x])[..|a|] == a;
    assert ActiveNames(b) == ActiveNames(a + [x]) + ts;
    assert ActiveNames(a + [x]) == ActiveNames(a) + qs;
    SeqAssoc(ActiveNames(a), qs, ts);
  }

  /** The names slot n contributes are those of its active ports m = 2n-2 (q) and m+1 (T). */
  lemma SlotNamesArePortNames(n: nat, m: nat, p: Port)
    requires n >= 1 && m == 2 * n - 2
    ensures SlotNames(n, p) ==
      (if p.QAndT? then [PortName(m)] else []) + (if !p.Unused? then [PortName(m + 1)] else [])
  {
    assert m / 2 + 1 == n && (m + 1) / 2 + 1 == n;
    assert m % 2 == 0 && (m + 1) % 2 == 1;
    assert PortName(m) == "q" + IntToString(n);
    assert PortName(m + 1) == "T" + IntToString(n);
  }

  /** The header built slot by slot is the list of active port names, in port order. */
  lemma {:induction false} NamesOfIsActiveNames(ps: seq<Port>)
    ensures NamesOf(ps) == ActiveNames(ActivePorts(ps))
  {
    if |ps| > 0 {
      var n := |ps|;
      var init := ps[..n - 1];
      var last := ps[n - 1];
      var a := ActivePorts(init);
      NamesOfIsActiveNames(init);
      SlotNamesArePortNames(n, |a|, last);
      ActiveNamesSnoc2(a, last.QAndT?, !last.Unused?);
      assert ActivePorts(ps) == a + [last.QAndT?, !last.Unused?];
      assert NamesOf(ps) == NamesOf(init) + SlotNames(n, last);
    }
  }

  /** The number of active ports equals the length of the header. */
  lemma NamesOfCount(ps: seq<Port>)
    ensures |NamesOf(ps)| == CountTrue(ActivePorts(ps))
  {
    NamesOfIsActiveNames(ps);
    ActiveNamesCount(ActivePorts(ps));
  }

  /** __init__ as a whole: the exception it raises first, or the fields it sets. */
  function Expected(cfg: FluxConfig): (r: Result<FluxSetup, Fault>)
    requires DistinctKeys(cfg.sensors)
  {
    if cfg.daqType != "COMPAQ" && cfg.daqType != "FluxDAQ+" then Err(ValueError(InvalidDaqType))
    else
      var name := if cfg.name.None? || cfg.name.value == "" then cfg.daqType else cfg.name.value;
      match InitDevice(name, cfg.samplingMs)
      case Err(e) => Err(e)
      case Ok(info) =>
        if |cfg.sensors| == 0 then Err(AssertionError(NoSensors))
        else if exists i :: 0 <= i < |cfg.sensors| && !(1 <= cfg.sensors[i].0 <= MaxSensorId) then
          Err(AssertionError(SensorIdOutOfRange))
        else
          var report := MaxId(cfg.sensors);
          match LayoutOf(cfg.sensors, report)
          case Err(e) => Err(e)
          case Ok(l) =>
            Ok(FluxSetup(info.(header := l.header), cfg.daqType, |cfg.sensors|, report,
                         l.activePorts, l.sList))
  }

  /** A configuration that Expected accepts has its layout invariant, and every id is within 1..4. */
  lemma ExpectedValid(cfg: FluxConfig)
    requires DistinctKeys(cfg.sensors)
    requires Expected(cfg).Ok?
    ensures Expected(cfg).value.Valid()
    ensures 1 <= Expected(cfg).value.report <= MaxSensorId
    ensures forall id :: id in Ids(cfg.sensors) ==> 1 <= id <= Expected(cfg).value.report
  {
    var ps := PortsUpTo(cfg.sensors, MaxId(cfg.sensors)).value;
    NamesOfIsActiveNames(ps);
    forall id | id in Ids(cfg.sensors)
      ensures 1 <= id
    {
      var i :| 0 <= i < |cfg.sensors| && cfg.sensors[i].0 == id;
    }
  }

  /**
   * What each slot of an accepted configuration became: port 2(id-1) is active iff id is
   * configured with q on, port 2(id-1)+1 iff id is configured, and s_list holds the s value
   * exactly for the slots with q on.
   */
  lemma ExpectedSlot(cfg: FluxConfig, id: nat)
    requires DistinctKeys(cfg.sensors)
    requires Expected(cfg).Ok?
    requires 1 <= id <= Expected(cfg).value.report
    ensures var s := Expected(cfg).value; var c := Record(cfg.sensors, id);
      && (s.activePorts[2 * (id - 1) + 1] <==> id in Ids(cfg.sensors))
      && (s.activePorts[2 * (id - 1)] <==> id in Ids(cfg.sensors) && c.Some? && QEnabled(c.value))
      && (s.activePorts[2 * (id - 1)] ==>
            c.Some? && c.value.sValue.Given? && c.value.sValue.v > 0.0
            && s.sList[id - 1] == Fin(c.value.sValue.v))
      && (!s.activePorts[2 * (id - 1)] ==> s.sList[id - 1] == Inf)
  {
    var report := MaxId(cfg.sensors);
    var ps := PortsUpTo(cfg.sensors, report).value;
    PortsUpToMeaning(cfg.sensors, report, id);
    ActivePortsAt(ps, id);
    if Find(cfg.sensors, id).Some? {
      PortOfAccepts(Find(cfg.sensors, id).value);
    }
  }

  /**
   * FluxDAQ.__init__ without the serial writes: validation, the slot loop over 1..report,
   * then the precheck of precheck_steps steps over the lines polled at each of them.
   */
  method Configure(cfg: FluxConfig, steps: int, lines: seq<Option<string>>) returns (r: Result<FluxSetup, Fault>)
    requires DistinctKeys(cfg.sensors)
    requires |lines| == if steps > 0 then steps else 0
    ensures Expected(cfg).Err? ==> r == Expected(cfg)
    ensures Expected(cfg).Ok? ==>
      var v := PrecheckVerdict(Received(lines, Expected(cfg).value.activePorts), steps);
      && (v == Pass ==> r == Expected(cfg))
      && (v.Fail? ==> r == Err(v.error))
    ensures r.Ok? ==> r.value.Valid()
  {
    if cfg.daqType != "COMPAQ" && cfg.daqType != "FluxDAQ+" {
      return Err(ValueError(InvalidDaqType));
    }
    var name := if cfg.name.None? || cfg.name.value == "" then cfg.daqType else cfg.name.value;
    var init := InitDevice(name, cfg.samplingMs);
    if init.Err? {
      return Err(init.error);
    }
    var sensors := cfg.sensors;
    if |sensors| == 0 {
      return Err(AssertionError(NoSensors));
    }
    if exists i :: 0 <= i < |sensors| && !(1 <= sensors[i].0 <= MaxSensorId) {
      return Err(AssertionError(SensorIdOutOfRange));
    }
    var report := MaxId(sensors);
    var slots := Slots(sensors, report);
    if slots.Err? {
      return Err(slots.error);
    }
    var l := slots.value;
    ExpectedValid(cfg);
    var verdict := PrecheckRun(steps, lines, l.activePorts);
    if verdict.Fail? {
      return Err(verdict.error);
    }
    r := Ok(FluxSetup(init.value.(header := l.header), cfg.daqType, |sensors|, report,
                      l.activePorts, l.sList));
  }

  /** One more slot: the ports, header, mask and s_list of slots 1..id extend those of 1..id-1. */
  lemma SlotStep(sensors: seq<(int, Option<SensorCfg>)>, ps: seq<Port>, id: nat, p: Port)
    requires id >= 1 && |ps| == id - 1
    requires PortsUpTo(sensors, id - 1) == Ok(ps)
    requires Find(sensors, id).None? ==> p == Unused
    requires Find(sensors, id).Some? ==> PortOf(Find(sensors, id).value) == Ok(p)
    ensures PortsUpTo(sensors, id) == Ok(ps + [p])
    ensures NamesOf(ps + [p]) == NamesOf(ps) + SlotNames(id, p)
    ensures ActivePorts(ps + [p]) == ActivePorts(ps) + [p.QAndT?, !p.Unused?]
    ensures SList(ps + [p]) == SList(ps) + [if p.QAndT? then Fin(p.s) else Inf]
  {
    assert (ps + [p])[..id - 1] == ps;
  }

  /** [False] * n */
  function Falses(n: nat): (r: seq<bool>)
    ensures |r| == n && forall i :: 0 <= i < n ==> !r[i]
  {
    if n == 0 then [] else Falses(n - 1) + [false]
  }

  /** [inf] * n */
  function Infs(n: nat): (r: seq<SVal>)
    ensures |r| == n && forall i :: 0 <= i < n ==> r[i] == Inf
  {
    if n == 0 then [] else Infs(n - 1) + [Inf]
  }

  /** The layout of slots 1..id-1 followed by an untouched tail. */
  ghost predicate Filled(sensors: seq<(int, Option<SensorCfg>)>, report: nat, id: nat, ps: seq<Port>, l: Layout) {
    && 1 <= id <= report + 1
    && |ps| == id - 1
    && PortsUpTo(sensors, id - 1) == Ok(ps)
    && l.header == NamesOf(ps)
    && l.activePorts == ActivePorts(ps) + Falses(2 * (report + 1 - id))
    && l.sList == SList(ps) + Infs(report + 1 - id)
    && |l.activePorts| == 2 * report && |l.sList| == report
    && (id <= report ==>
          !l.activePorts[2 * (id - 1)] && !l.activePorts[2 * (id - 1) + 1] && l.sList[id - 1] == Inf)
  }

  /** What the pass for slot id does to the layout once its record is accepted. */
  function Fill(l: Layout, id: nat, p: Port): Layout
    requires 1 <= id && 2 * id <= |l.activePorts| && id <= |l.sList|
  {
    Layout(l.header + SlotNames(id, p),
           l.activePorts[2 * (id - 1) := p.QAndT?][2 * (id - 1) + 1 := !p.Unused?],
           l.sList[id - 1 := if p.QAndT? then Fin(p.s) else Inf])
  }

  /** Setting the ports of slot |mask|/2 + 1 in a mask whose tail is all False. */
  lemma MaskStep(mask: seq<bool>, k: nat, x: bool, y: bool)
    ensures (mask + Falses(2 * (k + 1)))[|mask| := x][|mask| + 1 := y] == (mask + [x, y]) + Falses(2 * k)
  {
  }

  /** Setting the s_list entry of the next slot in a list whose tail is all inf. */
  lemma SValStep(svals: seq<SVal>, k: nat, v: SVal)
    ensures (svals + Infs(k + 1))[|svals| := v] == (svals + [v]) + Infs(k)
  {
  }

  /** After the pass for slot id, slots 1..id are filled. */
  lemma SlotsStep(sensors: seq<(int, Option<SensorCfg>)>, report: nat, id: nat, ps: seq<Port>, p: Port,
                  l0: Layout, l1: Layout)
    requires id <= report
    requires Filled(sensors, report, id, ps, l0)
    requires Find(sensors, id).None? ==> p == Unused
    requires Find(sensors, id).Some? ==> PortOf(Find(sensors, id).value) == Ok(p)
    requires l1 == Fill(l0, id, p)
    ensures Filled(sensors, report, id + 1, ps + [p], l1)
  {
    SlotStep(sensors, ps, id, p);
    var k := report - id;
    MaskStep(ActivePorts(ps), k, p.QAndT?, !p.Unused?);
    SValStep(SList(ps), k, if p.QAndT? then Fin(p.s) else Inf);
    var mask, svals := ActivePorts(ps + [p]), SList(ps + [p]);
    assert l1.activePorts == mask + Falses(2 * k);
    assert l1.sList == svals + Infs(k);
    if id + 1 <= report {
      assert |mask| == 2 * id && |svals| == id;
      assert (mask + Falses(2 * k))[2 * id] == Falses(2 * k)[0];
      assert (mask + Falses(2 * k))[2 * id + 1] == Falses(2 * k)[1];
      assert (svals + Infs(k))[id] == Infs(k)[0];
    }
  }

  /** The pass for an id that is not configured changes nothing. */
  lemma FillUnused(l: Layout, id: nat)
    requires 1 <= id && 2 * id <= |l.activePorts| && id <= |l.sList|
    requires !l.activePorts[2 * (id - 1)] && !l.activePorts[2 * (id - 1) + 1] && l.sList[id - 1] == Inf
    ensures Fill(l, id, Unused) == l
  {
    assert l.activePorts[2 * (id - 1) := false][2 * (id - 1) + 1 := false] == l.activePorts;
    assert l.sList[id - 1 := Inf] == l.sList;
  }

  /**
   * One pass of the slot loop for a configured id: the record is checked, then q is
   * added when enabled (s_list entry, header name, port) and T always.
   */
  method Slot(sensor: Option<SensorCfg>, id: nat, l: Layout) returns (r: Result<Layout, Fault>)
    requires 1 <= id && 2 * id <= |l.activePorts| && id <= |l.sList|
    requires !l.activePorts[2 * (id - 1)] && l.sList[id - 1] == Inf
    ensures PortOf(sensor).Err? ==> r == Err(PortOf(sensor).error)
    ensures PortOf(sensor).Ok? ==> r == Ok(Fill(l, id, PortOf(sensor).value))
  {
    if Falsy(sensor) {
      return Err(ValueError(MissingSensorInfo));
    }
    var c := sensor.value;
    if c.q.Absent? {
      return Err(KeyError);
    }
    var header, activePorts, sList := l.header, l.activePorts, l.sList;
    if QEnabled(c) {
      if c.sValue.Absent? {
        return Err(KeyError);
      }
      if c.sValue.Null? || c.sValue.v <= 0.0 {
        return Err(if c.hasId then ValueError(SValueNotPositive) else KeyError);
      }
      sList := sList[id - 1 := Fin(c.sValue.v)];
      header := header + ["q" + IntToString(id)];
      activePorts := activePorts[2 * (id - 1) := true];
    } else {
      assert activePorts[2 * (id - 1) := false] == activePorts;
      assert sList[id - 1 := Inf] == sList;
    }
    header := header + ["T" + IntToString(id)];
    activePorts := activePorts[2 * (id - 1) + 1 := true];
    assert header == l.header + SlotNames(id, PortOf(sensor).value);
    return Ok(Layout(header, activePorts, sList));
  }

  /**
   * The slot loop of __init__: active_ports and s_list start all False and all inf and
   * are set in place, the header is appended to, and the first bad record raises.
   */
  method Slots(sensors: seq<(int, Option<SensorCfg>)>, report: nat) returns (r: Result<Layout, Fault>)
    ensures r == LayoutOf(sensors, report)
  {
    var activePorts := Falses(2 * report);
    var sList := Infs(report);
    var header: seq<string> := [];
    ghost var ps: seq<Port> := [];
    FilledStart(sensors, report);
    for id := 1 to report + 1
      invariant Filled(sensors, report, id, ps, Layout(header, activePorts, sList))
    {
      ghost var l0 := Layout(header, activePorts, sList);
      FilledRoom(sensors, report, id, ps, l0);
      ghost var p := Unused;
      var entry := Find(sensors, id);
      if entry.Some? {
        var filled := Slot(entry.value, id, Layout(header, activePorts, sList));
        if filled.Err? {
          SlotFails(sensors, report, id, ps, l0);
          return Err(filled.error);
        }
        p := PortOf(entry.value).value;
        header, activePorts, sList := filled.value.header, filled.value.activePorts, filled.value.sList;
      } else {
        FillUnused(l0, id);
      }
      SlotsStep(sensors, report, id, ps, p, l0, Layout(header, activePorts, sList));
      ps := ps + [p];
    }
    FilledDone(sensors, report, ps, Layout(header, activePorts, sList));
    return Ok(Layout(header, activePorts, sList));
  }

  /** Before the loop: nothing filled, the mask all False, s_list all inf. */
  lemma FilledStart(sensors: seq<(int, Option<SensorCfg>)>, report: nat)
    ensures Filled(sensors, report, 1, [], Layout([], Falses(2 * report), Infs(report)))
  {
    assert ActivePorts([]) + Falses(2 * report) == Falses(2 * report);
    assert SList([]) + Infs(report) == Infs(report);
  }

  /** Within the loop: slot id's ports and s_list entry are still untouched. */
  lemma FilledRoom(sensors: seq<(int, Option<SensorCfg>)>, report: nat, id: nat, ps: seq<Port>, l: Layout)
    requires Filled(sensors, report, id, ps, l) && id <= report
    ensures 1 <= id && 2 * id <= |l.activePorts| && id <= |l.sList|
    ensures !l.activePorts[2 * (id - 1)] && !l.activePorts[2 * (id - 1) + 1] && l.sList[id - 1] == Inf
  {
  }

  /** A record of slot id that is refused ends the whole loop with its exception. */
  lemma SlotFails(sensors: seq<(int, Option<SensorCfg>)>, report: nat, id: nat, ps: seq<Port>, l: Layout)
    requires Filled(sensors, report, id, ps, l) && id <= report
    requires Find(sensors, id).Some? && PortOf(Find(sensors, id).value).Err?
    ensures LayoutOf(sensors, report) == Err(PortOf(Find(sensors, id).value).error)
  {
    ErrPersists(sensors, id, report);
  }

  /** After the loop: the layout of every slot 1..report. */
  lemma FilledDone(sensors: seq<(int, Option<SensorCfg>)>, report: nat, ps: seq<Port>, l: Layout)
    requires Filled(sensors, report, report + 1, ps, l)
    ensures LayoutOf(sensors, report) == Ok(l)
  {
    assert l.activePorts == ActivePorts(ps) + Falses(0) == ActivePorts(ps);
    assert l.sList == SList(ps) + Infs(0) == SList(ps);
  }

  /** float(val), or NaN when the text is not a number. */
  function FieldValue(text: string): (r: Value)
    ensures r.Num? <==> ParseReal(text).Some?
  {
    match ParseReal(text)
    case Some(x) => Num(x)
    case None => NaN
  }

  /** The values of the active fields, in port order. */
  function KeepActive(fields: seq<string>, active: seq<bool>): (r: seq<Value>)
    requires |fields| == |active|
  {
    if |active| == 0 then []
    else
      var init := KeepActive(fields[..|fields| - 1], active[..|active| - 1]);
      init + (if active[|active| - 1] then [FieldValue(fields[|fields| - 1])] else [])
  }

  /** The active fields paired with the names of their ports. */
  function Labeled(fields: seq<string>, active: seq<bool>): seq<(string, Value)>
    requires |fields| == |active|
  {
    if |active| == 0 then []
    else
      var init := Labeled(fields[..|fields| - 1], active[..|active| - 1]);
      init + (if active[|active| - 1] then [(PortName(|active| - 1), FieldValue(fields[|fields| - 1]))] else [])
  }

  /** Reading k of a line is the field of the port that header name k stands for. */
  lemma {:induction false} KeepActiveLabeled(fields: seq<string>, active: seq<bool>)
    requires |fields| == |active|
    ensures |KeepActive(fields, active)| == |Labeled(fields, active)| == |ActiveNames(active)| == CountTrue(active)
    ensures forall k :: 0 <= k < |Labeled(fields, active)| ==>
      Labeled(fields, active)[k] == (ActiveNames(active)[k], KeepActive(fields, active)[k])
  {
    if |active| > 0 {
      KeepActiveLabeled(fields[..|fields| - 1], active[..|active| - 1]);
    }
  }

  /** read_data on one line: no reading unless there are two fields per slot. */
  function Decode(line: string, active: seq<bool>): Option<seq<Value>> {
    var fields := Split(line, ',');
    if |fields| != |active| then None else Some(KeepActive(fields, active))
  }

  /** A line the precheck counts as received: the right field count and every active field a number. */
  predicate WellFormed(line: string, active: seq<bool>) {
    var fields := Split(line, ',');
    |fields| == |active| && forall i :: 0 <= i < |fields| && active[i] ==> ParseReal(fields[i]).Some?
  }

  lemma {:induction false} KeepActiveNoNaN(fields: seq<string>, active: seq<bool>)
    requires |fields| == |active|
    requires forall i :: 0 <= i < |fields| && active[i] ==> ParseReal(fields[i]).Some?
    ensures NaN !in KeepActive(fields, active)
  {
    if |active| > 0 {
      KeepActiveNoNaN(fields[..|fields| - 1], active[..|active| - 1]);
    }
  }

  /** A line the precheck counts is one read_data decodes without any NaN. */
  lemma WellFormedDecodes(line: string, active: seq<bool>)
    requires WellFormed(line, active)
    ensures Decode(line, active).Some? && NaN !in Decode(line, active).value
  {
    KeepActiveNoNaN(Split(line, ','), active);
  }

  /** How many of the lines polled during the precheck were received well formed (None: nothing waiting). */
  function Received(lines: seq<Option<string>>, active: seq<bool>): (r: nat)
    ensures r <= |lines|
  {
    if |lines| == 0 then 0
    else
      var init := Received(lines[..|lines| - 1], active);
      init + (if lines[|lines| - 1].Some? && WellFormed(lines[|lines| - 1].value, active) then 1 else 0)
  }

  /** received / steps < 0.8 without the division, for steps of either sign. */
  lemma RatioBelow(a: real, b: real)
    requires a >= 0.0 && b != 0.0
    ensures b > 0.0 ==> (a / b < 0.8 <==> 5.0 * a < 4.0 * b)
    ensures b < 0.0 ==> a / b < 0.8
  {
    var q := a / b;
    assert q * b == a;
    if b > 0.0 {
      if q < 0.8 {
        assert q * b < 0.8 * b;
      } else {
        assert q * b >= 0.8 * b;
      }
    } else {
      assert q <= 0.0;
    }
  }

  /** The 80 % rule: received / steps below 0.8 fails; no steps at all divides by zero. */
  function PrecheckVerdict(received: nat, steps: int): (r: Outcome<Fault>)
    ensures steps == 0 <==> r == Fail(ZeroDivisionError)
    ensures steps > 0 ==> (r == Pass <==> 5 * received >= 4 * steps)
    ensures steps < 0 ==> r == Fail(ValueError(NotResponding))
  {
    if steps == 0 then Fail(ZeroDivisionError)
    else
      RatioBelow(received as real, steps as real);
      if (received as real) / (steps as real) < 0.8 then Fail(ValueError(NotResponding))
    else Pass
  }

  /**
   * The precheck loop over range(steps), one polled line per step (none when steps is not
   * positive): counts the well-formed lines, then applies the 80 % rule.
   */
  method PrecheckRun(steps: int, lines: seq<Option<string>>, active: seq<bool>) returns (r: Outcome<Fault>)
    requires |lines| == if steps > 0 then steps else 0
    ensures r == PrecheckVerdict(Received(lines, active), steps)
  {
    var received := 0;
    for step := 0 to |lines|
      invariant received == Received(lines[..step], active)
    {
      if lines[step].Some? && WellFormed(lines[step].value, active) {
        received := received + 1;
      }
      assert lines[..step + 1][..step] == lines[..step];
    }
    assert lines[..|lines|] == lines;
    r := PrecheckVerdict(received, steps);
  }

  /** A precheck in which every step delivers a well-formed line passes. */
  lemma PrecheckAllReceived(lines: seq<Option<string>>, active: seq<bool>)
    requires |lines| > 0
    requires forall i :: 0 <= i < |lines| ==> lines[i].Some? && WellFormed(lines[i].value, active)
    ensures PrecheckVerdict(Received(lines, active), |lines|) == Pass
  {
    ReceivedAll(lines, active);
  }

  lemma {:induction false} ReceivedAll(lines: seq<Option<string>>, active: seq<bool>)
    requires forall i :: 0 <= i < |lines| ==> lines[i].Some? && WellFormed(lines[i].value, active)
    ensures Received(lines, active) == |lines|
  {
    if |lines| > 0 {
      ReceivedAll(lines[..|lines| - 1], active);
    }
  }

  class FluxDAQ {
    const name: string
    const samplingMs: int
    const header: seq<string>
    const daqType: string
    const numSensors: nat
    const reportNumSensors: nat
    const activePorts: seq<bool>
    const sList: seq<SVal>

    ghost predicate Valid() {
      && |activePorts| == 2 * reportNumSensors
      && |sList| == reportNumSensors
      && header == ActiveNames(activePorts)
    }

    /** Stores what Configure built. */
    constructor (s: FluxSetup)
      requires s.Valid()
      ensures Valid()
      ensures name == s.info.name && samplingMs == s.info.samplingMs && header == s.info.header
      ensures daqType == s.daqType && numSensors == s.numSensors
      ensures reportNumSensors == s.report && activePorts == s.activePorts && sList == s.sList
    {
      name := s.info.name;
      samplingMs := s.info.samplingMs;
      header := s.info.header;
      daqType := s.daqType;
      numSensors := s.numSensors;
      reportNumSensors := s.report;
      activePorts := s.activePorts;
      sList := s.sList;
    }

    /**
     * read_data on the line the logger sent: None unless it has two fields per slot,
     * otherwise the active fields in port order, NaN where a field is not a number,
     * and value k comes from the port that header name k stands for.
     */
    method ReadData(line: string) returns (r: Option<seq<Value>>)
      requires Valid()
      ensures r == Decode(line, activePorts)
      ensures r.None? <==> |Split(line, ',')| != 2 * reportNumSensors
      ensures r.Some? ==> FitsHeader(header, r.value)
      ensures r.Some? ==> |r.value| == |Labeled(Split(line, ','), activePorts)|
      ensures r.Some? ==> forall k :: 0 <= k < |r.value| ==>
        (header[k], r.value[k]) == Labeled(Split(line, ','), activePorts)[k]
    {
      var fields := Split(line, ',');
      if |fields| != 2 * reportNumSensors {
        return None;
      }
      var out: seq<Value> := [];
      for i := 0 to |fields|
        invariant out == KeepActive(fields[..i], activePorts[..i])
      {
        if activePorts[i] {
          out := out + [FieldValue(fields[i])];
        }
        assert fields[..i + 1][..i] == fields[..i];
        assert activePorts[..i + 1][..i] == activePorts[..i];
      }
      assert fields[..|fields|] == fields;
      assert activePorts[..|fields|] == activePorts;
      KeepActiveLabeled(fields, activePorts);
      return Some(out);
    }

    /** precheck(precheck_steps) over the lines polled at each step, one entry per step. */
    method Precheck(steps: int, lines: seq<Option<string>>) returns (r: Outcome<Fault>)
      requires Valid()
      requires |lines| == if steps > 0 then steps else 0
      ensures r == PrecheckVerdict(Received(lines, activePorts), steps)
    {
      r := PrecheckRun(steps, lines, activePorts);
    }
  }
}
