/**
 * The response mappers whose loops are the same text in several versions
 * of the script: per-kind discovery records, the bulk maps of `get_all`
 * and the id -> health dict of the single-item lookup.
 */
module Mappers {
  import opened Results
  import opened Xml
  import opened Text
  import opened Assoc
  import Json

  /** The component kinds the discovery builder knows. */
  datatype Kind = Vdisks | Disks | Controllers | Enclosures

  /** The OBJECT name the items of a kind carry in a `show` reply. */
  function ObjectName(k: Kind): string {
    match k
    case Vdisks => "virtual-disk"
    case Disks => "drive"
    case Controllers => "controllers"
    case Enclosures => "enclosures"
  }

  /** `findall("./OBJECT[@name='<object name>']")` on the reply root. */
  function Items(tree: Element, k: Kind): seq<Element> {
    Children(tree, "OBJECT", ObjectName(k))
  }

  /** `o.find("./PROPERTY[@name='name']").text`; None when the PROPERTY is missing. */
  function Prop(o: Element, name: string): Option<Option<string>> {
    TextOf(Find(o, "PROPERTY", name))
  }

  // ----- discovery records -----

  /** The fixed discovery keys of a kind, in the order of the record. */
  function DiscoveryKeys(k: Kind): seq<string> {
    match k
    case Vdisks => ["{#VDISKNAME}"]
    case Disks => ["{#DISKLOCATION}", "{#DISKSN}"]
    case Controllers => ["{#CTRLID}", "{#CTRLSN}", "{#CTRLIP}"]
    case Enclosures => ["{#ENCLOSUREID}", "{#ENCLOSURESN}"]
  }

  function VdiskRecord(o: Element): Option<Json.Record> {
    var name := Prop(o, "name");
    if name.None? then None else Some([("{#VDISKNAME}", Str(name.value))])
  }

  function DiskRecord(o: Element): Option<Json.Record> {
    var loc := Prop(o, "location");
    var sn := Prop(o, "serial-number");
    if loc.None? || sn.None? then None
    else Some([("{#DISKLOCATION}", Str(loc.value)), ("{#DISKSN}", Str(sn.value))])
  }

  function ControllerRecord(o: Element): Option<Json.Record> {
    var id := Prop(o, "controller-id");
    var sn := Prop(o, "serial-number");
    var ip := Prop(o, "ip-address");
    if id.None? || sn.None? || ip.None? then None
    else Some([("{#CTRLID}", Str(id.value)), ("{#CTRLSN}", Str(sn.value)), ("{#CTRLIP}", Str(ip.value))])
  }

  function EnclosureRecord(o: Element): Option<Json.Record> {
    var id := Prop(o, "enclosure-id");
    var sn := Prop(o, "midplane-serial-number");
    if id.None? || sn.None? then None
    else Some([("{#ENCLOSUREID}", Str(id.value)), ("{#ENCLOSURESN}", Str(sn.value))])
  }

  /** The record one item of a kind gives; None when a PROPERTY it reads is missing. */
  function RecordFn(k: Kind): Element -> Option<Json.Record> {
    match k
    case Vdisks => VdiskRecord
    case Disks => DiskRecord
    case Controllers => ControllerRecord
    case Enclosures => EnclosureRecord
  }

  function KeysOf(r: Json.Record): seq<string> {
    if r == [] then [] else [r[0].0] + KeysOf(r[1..])
  }

  /** The discovery loop: one record appended per item, in document order; None when one item crashes. */
  method Discover(tree: Element, k: Kind) returns (r: Option<seq<Json.Record>>)
    ensures r == Traverse(RecordFn(k), Items(tree, k))
  {
    var objs := Items(tree, k);
    var f := RecordFn(k);
    var all: seq<Json.Record> := [];
    var i := 0;
    while i < |objs|
      invariant 0 <= i <= |objs|
      invariant Traverse(f, objs[..i]) == Some(all)
    {
      var rec := f(objs[i]);
      TraverseStep(f, objs, i);
      if rec.None? {
        TraverseFails(f, objs, i);
        return None;
      }
      all := all + [rec.value];
      i := i + 1;
    }
    assert objs[..i] == objs;
    r := Some(all);
  }

  /** Every record of a kind has exactly that kind's keys. */
  lemma RecordKeys(k: Kind, o: Element)
    requires RecordFn(k)(o).Some?
    ensures KeysOf(RecordFn(k)(o).value) == DiscoveryKeys(k)
  {
    var rec := RecordFn(k)(o).value;
    assert KeysOf(rec) == [rec[0].0] + KeysOf(rec[1..]);
    match k
    case Vdisks =>
    case Disks =>
      assert KeysOf(rec[1..]) == [rec[1].0] + KeysOf(rec[2..]);
    case Controllers =>
      assert KeysOf(rec[1..]) == [rec[1].0] + KeysOf(rec[2..]);
      assert KeysOf(rec[2..]) == [rec[2].0] + KeysOf(rec[3..]);
    case Enclosures =>
      assert KeysOf(rec[1..]) == [rec[1].0] + KeysOf(rec[2..]);
  }

  /**
   * Discovery yields one record per item in document order, every record
   * with exactly the fixed keys of its kind, and no items give no records.
   */
  lemma DiscoveryShape(tree: Element, k: Kind)
    ensures var r := Traverse(RecordFn(k), Items(tree, k));
      && (r.Some? <==> forall i :: 0 <= i < |Items(tree, k)| ==> RecordFn(k)(Items(tree, k)[i]).Some?)
      && (r.Some? ==> |r.value| == |Items(tree, k)|
                      && forall i :: 0 <= i < |r.value| ==> KeysOf(r.value[i]) == DiscoveryKeys(k))
      && (Items(tree, k) == [] ==> r == Some([]))
  {
    var objs := Items(tree, k);
    var r := Traverse(RecordFn(k), objs);
    TraverseSpec(RecordFn(k), objs);
    if r.Some? {
      forall i | 0 <= i < |r.value| ensures KeysOf(r.value[i]) == DiscoveryKeys(k) {
        RecordKeys(k, objs[i]);
      }
    }
  }

  // ----- bulk maps (get_all) -----

  /** One disk of `get_all`: exactly the keys health, temperature and work_hours. */
  datatype DiskInfo = DiskInfo(health: Option<string>, temperature: Option<string>, workHours: Option<string>)

  /** One vdisk of `get_all`: exactly the key health. */
  datatype VdiskInfo = VdiskInfo(health: Option<string>)

  /** One controller port: health, status and sfp_status. */
  datatype PortInfo = PortInfo(health: Option<string>, status: Option<string>, sfpStatus: Option<string>)

  /** One controller: health, cf_health and its ports by port name. */
  datatype ControllerInfo = ControllerInfo(health: Option<string>, cfHealth: Option<string>, ports: map<Option<string>, PortInfo>)

  /** The dict `get_all` serialises, by kind. */
  datatype Bulk =
    | DiskMap(disks: map<Option<string>, DiskInfo>)
    | VdiskMap(vdisks: map<Option<string>, VdiskInfo>)
    | ControllerMap(controllers: map<Option<string>, ControllerInfo>)

  /** location -> info of one drive; None when one of its four PROPERTYs is missing. */
  function DiskEntry(o: Element): Option<(Option<string>, DiskInfo)> {
    var loc := Prop(o, "location");
    var health := Prop(o, "health");
    var temp := Prop(o, "temperature-numeric");
    var hours := Prop(o, "power-on-hours");
    if loc.None? || health.None? || temp.None? || hours.None? then None
    else Some((loc.value, DiskInfo(health.value, temp.value, hours.value)))
  }

  /** name -> info of one virtual disk. */
  function VdiskEntry(o: Element): Option<(Option<string>, VdiskInfo)> {
    var name := Prop(o, "name");
    var health := Prop(o, "health");
    if name.None? || health.None? then None else Some((name.value, VdiskInfo(health.value)))
  }

  /** port -> info of one `ports` OBJECT; sfp-status sits in its `port-details` OBJECT. */
  function PortEntry(p: Element): Option<(Option<string>, PortInfo)> {
    var name := Prop(p, "port");
    var health := Prop(p, "health");
    var status := Prop(p, "status");
    var sfp := TextOf(FindPath(p, "port-details", "sfp-status"));
    if name.None? || health.None? || status.None? || sfp.None? then None
    else Some((name.value, PortInfo(health.value, status.value, sfp.value)))
  }

  /** The `ports` OBJECTs of a controller. */
  function Ports(o: Element): seq<Element> {
    Children(o, "OBJECT", "ports")
  }

  /** `find("OBJECT[@basetype='compact-flash']/PROPERTY[@name='health']").text`. */
  function CompactFlashHealth(o: Element): Option<Option<string>> {
    TextOf(First(PathAll(o, "basetype", "compact-flash", "health")))
  }

  /** controller-id, health and cf_health of one controller, read before its ports. */
  function ControllerHead(o: Element): Option<(Option<string>, Option<string>, Option<string>)> {
    var id := Prop(o, "controller-id");
    var health := Prop(o, "health");
    var cf := CompactFlashHealth(o);
    if id.None? || health.None? || cf.None? then None else Some((id.value, health.value, cf.value))
  }

  /** controller-id -> info of one controller, with all of its ports. */
  function ControllerEntry(o: Element): Option<(Option<string>, ControllerInfo)> {
    var head := ControllerHead(o);
    var ports := Traverse(PortEntry, Ports(o));
    if head.None? || ports.None? then None
    else Some((head.value.0, ControllerInfo(head.value.1, head.value.2, ToMap(ports.value))))
  }

  /** The controller record is assigned inside the ports loop: only controllers with a port are kept. */
  function HasPorts(e: (Option<string>, ControllerInfo)): bool {
    e.1.ports != map[]
  }

  /** The `get_all` loop over drives: `all_components[location] = disk_info`. */
  method BulkDisks(tree: Element) returns (r: Option<map<Option<string>, DiskInfo>>)
    ensures r == ToMapOpt(Traverse(DiskEntry, Items(tree, Disks)))
  {
    var objs := Items(tree, Disks);
    var all: map<Option<string>, DiskInfo> := map[];
    ghost var ps: seq<(Option<string>, DiskInfo)> := [];
    var i := 0;
    while i < |objs|
      invariant 0 <= i <= |objs|
      invariant Traverse(DiskEntry, objs[..i]) == Some(ps)
      invariant all == ToMap(ps)
    {
      var entry := DiskEntry(objs[i]);
      TraverseStep(DiskEntry, objs, i);
      if entry.None? {
        TraverseFails(DiskEntry, objs, i);
        return None;
      }
      all := all[entry.value.0 := entry.value.1];
      ToMapSnoc(ps, entry.value);
      ps := ps + [entry.value];
      i := i + 1;
    }
    assert objs[..i] == objs;
    r := Some(all);
  }

  /** The `get_all` loop over virtual disks: `all_components[name] = vdisk_info`. */
  method BulkVdisks(tree: Element) returns (r: Option<map<Option<string>, VdiskInfo>>)
    ensures r == ToMapOpt(Traverse(VdiskEntry, Items(tree, Vdisks)))
  {
    var objs := Items(tree, Vdisks);
    var all: map<Option<string>, VdiskInfo> := map[];
    ghost var ps: seq<(Option<string>, VdiskInfo)> := [];
    var i := 0;
    while i < |objs|
      invariant 0 <= i <= |objs|
      invariant Traverse(VdiskEntry, objs[..i]) == Some(ps)
      invariant all == ToMap(ps)
    {
      var entry := VdiskEntry(objs[i]);
      TraverseStep(VdiskEntry, objs, i);
      if entry.None? {
        TraverseFails(VdiskEntry, objs, i);
        return None;
      }
      all := all[entry.value.0 := entry.value.1];
      ToMapSnoc(ps, entry.value);
      ps := ps + [entry.value];
      i := i + 1;
    }
    assert objs[..i] == objs;
    r := Some(all);
  }

  /**
   * The inner ports loop of `get_all`: fills `ports_info` and, after each
   * port, assigns the controller's record (`health`, `cf_health`, the ports
   * dict) to `ctrl_id` in `all`.
   */
  method PortsLoop(fcs: seq<Element>, all: map<Option<string>, ControllerInfo>,
                   id: Option<string>, health: Option<string>, cf: Option<string>)
    returns (r: Option<(map<Option<string>, PortInfo>, map<Option<string>, ControllerInfo>)>)
    ensures r.Some? <==> Traverse(PortEntry, fcs).Some?
    ensures r.Some? ==> r.value.0 == ToMap(Traverse(PortEntry, fcs).value)
    ensures r.Some? ==> r.value.1 == if |fcs| == 0 then all else all[id := ControllerInfo(health, cf, r.value.0)]
  {
    var ports: map<Option<string>, PortInfo> := map[];
    var acc := all;
    ghost var ps: seq<(Option<string>, PortInfo)> := [];
    var j := 0;
    while j < |fcs|
      invariant 0 <= j <= |fcs|
      invariant Traverse(PortEntry, fcs[..j]) == Some(ps)
      invariant ports == ToMap(ps)
      invariant acc == if j == 0 then all else all[id := ControllerInfo(health, cf, ports)]
    {
      var port := PortEntry(fcs[j]);
      TraverseStep(PortEntry, fcs, j);
      if port.None? {
        TraverseFails(PortEntry, fcs, j);
        return None;
      }
      ghost var previous := ports;
      ports := ports[port.value.0 := port.value.1];
      ToMapSnoc(ps, port.value);
      ps := ps + [port.value];
      if j > 0 {
        UpdateTwice(all, id, ControllerInfo(health, cf, previous), ControllerInfo(health, cf, ports));
      }
      acc := acc[id := ControllerInfo(health, cf, ports)];
      j := j + 1;
    }
    assert fcs[..j] == fcs;
    r := Some((ports, acc));
  }

  /** The entry of a controller whose fields and ports are all present; it is kept iff it has a port. */
  lemma EntryOfController(o: Element, e: (Option<string>, ControllerInfo))
    requires ControllerHead(o) == Some((e.0, e.1.health, e.1.cfHealth))
    requires Traverse(PortEntry, Ports(o)).Some? && e.1.ports == ToMap(Traverse(PortEntry, Ports(o)).value)
    ensures ControllerEntry(o) == Some(e)
    ensures HasPorts(e) <==> |Ports(o)| != 0
  {
    var ps := Traverse(PortEntry, Ports(o)).value;
    TraverseSpec(PortEntry, Ports(o));
    if |Ports(o)| != 0 {
      ToMapKeys(ps, ps[0].0);
      assert ps[0].0 in e.1.ports;
    } else {
      assert ps == [];
    }
  }

  /** One outer iteration keeps the dict equal to the controllers-with-ports seen so far. */
  lemma AdvanceControllers(es: seq<(Option<string>, ControllerInfo)>, e: (Option<string>, ControllerInfo),
                           all: map<Option<string>, ControllerInfo>, next: map<Option<string>, ControllerInfo>)
    requires all == ToMap(Filter(HasPorts, es))
    requires next == if HasPorts(e) then all[e.0 := e.1] else all
    ensures next == ToMap(Filter(HasPorts, es + [e]))
  {
    FilterSnoc(HasPorts, es, e);
    if HasPorts(e) {
      ToMapSnoc(Filter(HasPorts, es), e);
    } else {
      assert Filter(HasPorts, es) + [] == Filter(HasPorts, es);
    }
  }

  /**
   * The `get_all` loop over controllers; `all_components[ctrl_id]` is
   * assigned inside the ports loop, so a controller without ports is never
   * assigned.
   */
  method BulkControllers(tree: Element) returns (r: Option<map<Option<string>, ControllerInfo>>)
    ensures r == (var es := Traverse(ControllerEntry, Items(tree, Controllers));
                  if es.Some? then Some(ToMap(Filter(HasPorts, es.value))) else None)
  {
    var objs := Items(tree, Controllers);
    var all: map<Option<string>, ControllerInfo> := map[];
    ghost var es: seq<(Option<string>, ControllerInfo)> := [];
    var i := 0;
    while i < |objs|
      invariant 0 <= i <= |objs|
      invariant Traverse(ControllerEntry, objs[..i]) == Some(es)
      invariant all == ToMap(Filter(HasPorts, es))
    {
      TraverseStep(ControllerEntry, objs, i);
      var head := ControllerHead(objs[i]);
      if head.None? {
        TraverseFails(ControllerEntry, objs, i);
        return None;
      }
      var (id, health, cf) := head.value;
      var step := PortsLoop(Ports(objs[i]), all, id, health, cf);
      if step.None? {
        TraverseFails(ControllerEntry, objs, i);
        return None;
      }
      ghost var e := (id, ControllerInfo(health, cf, step.value.0));
      EntryOfController(objs[i], e);
      AdvanceControllers(es, e, all, step.value.1);
      all := step.value.1;
      es := es + [e];
      i := i + 1;
    }
    assert objs[..i] == objs;
    r := Some(all);
  }

  // ----- id -> health dict (single-item lookup) -----

  /** The PROPERTY an item's id is read from in the id -> health dict. */
  datatype IdProp = ControllerId | EnclosureId | SerialNumber

  function IdName(p: IdProp): string {
    match p
    case ControllerId => "controller-id"
    case EnclosureId => "enclosure-id"
    case SerialNumber => "serial-number"
  }

  /** id -> health of one item, the id read from the PROPERTY `idProp`. */
  function HealthEntry(o: Element, idProp: IdProp): Option<(Option<string>, Option<string>)> {
    var id := Prop(o, IdName(idProp));
    var health := Prop(o, "health");
    if id.None? || health.None? then None else Some((id.value, health.value))
  }

  function HealthByControllerId(o: Element): Option<(Option<string>, Option<string>)> { HealthEntry(o, ControllerId) }
  function HealthByEnclosureId(o: Element): Option<(Option<string>, Option<string>)> { HealthEntry(o, EnclosureId) }
  function HealthBySerialNumber(o: Element): Option<(Option<string>, Option<string>)> { HealthEntry(o, SerialNumber) }

  function HealthEntryFn(idProp: IdProp): Element -> Option<(Option<string>, Option<string>)> {
    match idProp
    case ControllerId => HealthByControllerId
    case EnclosureId => HealthByEnclosureId
    case SerialNumber => HealthBySerialNumber
  }

  /** `health_dict[ctrl_id] = health` for every item, in document order. */
  method HealthById(objs: seq<Element>, idProp: IdProp) returns (r: Option<map<Option<string>, Option<string>>>)
    ensures r == ToMapOpt(Traverse(HealthEntryFn(idProp), objs))
  {
    var f := HealthEntryFn(idProp);
    var dict: map<Option<string>, Option<string>> := map[];
    ghost var ps: seq<(Option<string>, Option<string>)> := [];
    var i := 0;
    while i < |objs|
      invariant 0 <= i <= |objs|
      invariant Traverse(f, objs[..i]) == Some(ps)
      invariant dict == ToMap(ps)
    {
      var entry := f(objs[i]);
      TraverseStep(f, objs, i);
      if entry.None? {
        TraverseFails(f, objs, i);
        return None;
      }
      dict := dict[entry.value.0 := entry.value.1];
      ToMapSnoc(ps, entry.value);
      ps := ps + [entry.value];
      i := i + 1;
    }
    assert objs[..i] == objs;
    r := Some(dict);
  }

  /** The id PROPERTY a controller item is matched on: one character is an id, anything longer a serial number. */
  function ControllerKey(item: string): IdProp {
    if |item| == 1 then ControllerId else SerialNumber
  }

  /**
   * `item in health_dict` and `health_dict[item]` after the loop: None when
   * the loop crashes, Some(None) for an item not in the dict, otherwise the
   * health stored under it.
   */
  function HealthLookup(objs: seq<Element>, idProp: IdProp, item: string): Option<Option<Option<string>>> {
    var ps := Traverse(HealthEntryFn(idProp), objs);
    if ps.None? then None
    else if Some(item) in ToMap(ps.value) then Some(Some(ToMap(ps.value)[Some(item)]))
    else Some(None)
  }

  // ----- what the maps say -----

  /** An item some object carries as its id gets the health of the last object that carries it. */
  lemma LookupFound(objs: seq<Element>, idProp: IdProp, item: string, j: nat)
    requires forall k :: 0 <= k < |objs| ==> Prop(objs[k], IdName(idProp)).Some? && Prop(objs[k], "health").Some?
    requires j < |objs| && Prop(objs[j], IdName(idProp)) == Some(Some(item))
    requires forall k :: j < k < |objs| ==> Prop(objs[k], IdName(idProp)) != Some(Some(item))
    ensures HealthLookup(objs, idProp, item) == Some(Some(Prop(objs[j], "health").value))
  {
    HealthOfLast(objs, idProp, j);
  }

  /** An item no object carries is not in the dict. */
  lemma LookupMissing(objs: seq<Element>, idProp: IdProp, item: string)
    requires forall k :: 0 <= k < |objs| ==> Prop(objs[k], IdName(idProp)).Some? && Prop(objs[k], "health").Some?
    requires forall k :: 0 <= k < |objs| ==> Prop(objs[k], IdName(idProp)) != Some(Some(item))
    ensures Traverse(HealthEntryFn(idProp), objs).Some?
    ensures HealthLookup(objs, idProp, item) == Some(None)
  {
    HealthDictBuilt(objs, idProp);
    HealthKeys(objs, idProp, Some(item));
  }

  /** The named function for an id PROPERTY is the id -> health entry on it. */
  lemma HealthEntryOf(o: Element, idProp: IdProp)
    ensures HealthEntryFn(idProp)(o) ==
      if Prop(o, IdName(idProp)).Some? && Prop(o, "health").Some?
      then Some((Prop(o, IdName(idProp)).value, Prop(o, "health").value))
      else None
  {
  }

  /** In the id -> health dict the LAST item with a given id decides its health. */
  lemma HealthOfLast(objs: seq<Element>, idProp: IdProp, j: nat)
    requires forall k :: 0 <= k < |objs| ==> Prop(objs[k], IdName(idProp)).Some? && Prop(objs[k], "health").Some?
    requires j < |objs|
    requires forall k :: j < k < |objs| ==> Prop(objs[k], IdName(idProp)) != Prop(objs[j], IdName(idProp))
    ensures Traverse(HealthEntryFn(idProp), objs).Some?
    ensures var m := ToMap(Traverse(HealthEntryFn(idProp), objs).value);
      Prop(objs[j], IdName(idProp)).value in m && m[Prop(objs[j], IdName(idProp)).value] == Prop(objs[j], "health").value
  {
    var f := HealthEntryFn(idProp);
    forall k | 0 <= k < |objs|
      ensures f(objs[k]) == Some((Prop(objs[k], IdName(idProp)).value, Prop(objs[k], "health").value))
    {
      HealthEntryOf(objs[k], idProp);
    }
    TraverseLastWins(f, objs, j);
  }

  /** The dict is built, without a crash, when every item has its id and its health. */
  lemma HealthDictBuilt(objs: seq<Element>, idProp: IdProp)
    requires forall k :: 0 <= k < |objs| ==> Prop(objs[k], IdName(idProp)).Some? && Prop(objs[k], "health").Some?
    ensures Traverse(HealthEntryFn(idProp), objs).Some?
  {
    forall k | 0 <= k < |objs| ensures HealthEntryFn(idProp)(objs[k]).Some? {
      HealthEntryOf(objs[k], idProp);
    }
    TraverseSpec(HealthEntryFn(idProp), objs);
  }

  /** An id is found in the dict exactly when some item carries it. */
  lemma HealthKeys(objs: seq<Element>, idProp: IdProp, id: Option<string>)
    requires Traverse(HealthEntryFn(idProp), objs).Some?
    ensures id in ToMap(Traverse(HealthEntryFn(idProp), objs).value)
        <==> exists j :: 0 <= j < |objs| && Prop(objs[j], IdName(idProp)) == Some(id)
  {
    var f := HealthEntryFn(idProp);
    TraverseSpec(f, objs);
    forall k | 0 <= k < |objs|
      ensures (f(objs[k]).Some? && f(objs[k]).value.0 == id) <==> Prop(objs[k], IdName(idProp)) == Some(id)
    {
      HealthEntryOf(objs[k], idProp);
    }
    TraverseKeys(f, objs, id);
  }

  /** A drive with all four PROPERTYs is filed under its location with their texts. */
  lemma DiskEntryOf(o: Element)
    requires Prop(o, "location").Some? && Prop(o, "health").Some?
    requires Prop(o, "temperature-numeric").Some? && Prop(o, "power-on-hours").Some?
    ensures DiskEntry(o) == Some((Prop(o, "location").value,
                                  DiskInfo(Prop(o, "health").value, Prop(o, "temperature-numeric").value, Prop(o, "power-on-hours").value)))
  {
  }

  /** In the bulk disk map the LAST drive with a location decides its record. */
  lemma DiskOfLast(objs: seq<Element>, j: nat)
    requires forall k :: 0 <= k < |objs| ==>
      && Prop(objs[k], "location").Some? && Prop(objs[k], "health").Some?
      && Prop(objs[k], "temperature-numeric").Some? && Prop(objs[k], "power-on-hours").Some?
    requires j < |objs|
    requires forall k :: j < k < |objs| ==> Prop(objs[k], "location") != Prop(objs[j], "location")
    ensures Traverse(DiskEntry, objs).Some?
    ensures var m := ToMap(Traverse(DiskEntry, objs).value);
      var o := objs[j];
      Prop(o, "location").value in m
      && m[Prop(o, "location").value]
         == DiskInfo(Prop(o, "health").value, Prop(o, "temperature-numeric").value, Prop(o, "power-on-hours").value)
  {
    forall k | 0 <= k < |objs|
      ensures DiskEntry(objs[k]) == Some((Prop(objs[k], "location").value, DiskInfo(Prop(objs[k], "health").value,
                                          Prop(objs[k], "temperature-numeric").value, Prop(objs[k], "power-on-hours").value)))
    {
      DiskEntryOf(objs[k]);
    }
    TraverseLastWins(DiskEntry, objs, j);
  }

  /** A virtual disk with a name and a health is filed under its name. */
  lemma VdiskEntryOf(o: Element)
    requires Prop(o, "name").Some? && Prop(o, "health").Some?
    ensures VdiskEntry(o) == Some((Prop(o, "name").value, VdiskInfo(Prop(o, "health").value)))
  {
  }

  /** In the bulk vdisk map the LAST virtual disk with a name decides its health. */
  lemma VdiskOfLast(objs: seq<Element>, j: nat)
    requires forall k :: 0 <= k < |objs| ==> Prop(objs[k], "name").Some? && Prop(objs[k], "health").Some?
    requires j < |objs|
    requires forall k :: j < k < |objs| ==> Prop(objs[k], "name") != Prop(objs[j], "name")
    ensures Traverse(VdiskEntry, objs).Some?
    ensures var m := ToMap(Traverse(VdiskEntry, objs).value);
      var o := objs[j];
      Prop(o, "name").value in m && m[Prop(o, "name").value] == VdiskInfo(Prop(o, "health").value)
  {
    forall k | 0 <= k < |objs|
      ensures VdiskEntry(objs[k]) == Some((Prop(objs[k], "name").value, VdiskInfo(Prop(objs[k], "health").value)))
    {
      VdiskEntryOf(objs[k]);
    }
    TraverseLastWins(VdiskEntry, objs, j);
  }

  /** A controller entry is filed under its controller-id and kept exactly when its controller has a `ports` OBJECT. */
  lemma KeptIffPorts(o: Element)
    requires ControllerEntry(o).Some?
    ensures Prop(o, "controller-id") == Some(ControllerEntry(o).value.0)
    ensures HasPorts(ControllerEntry(o).value) <==> Ports(o) != []
  {
    var e := ControllerEntry(o).value;
    EntryOfController(o, e);
  }

  /**
   * A controller id is in the bulk controller map exactly when some
   * controller with that controller-id has at least one `ports` OBJECT: a
   * controller without ports is left out.
   */
  lemma ControllerPresence(objs: seq<Element>, id: Option<string>)
    requires Traverse(ControllerEntry, objs).Some?
    ensures id in ToMap(Filter(HasPorts, Traverse(ControllerEntry, objs).value))
        <==> exists j :: 0 <= j < |objs| && Prop(objs[j], "controller-id") == Some(id) && Ports(objs[j]) != []
  {
    TraverseSpec(ControllerEntry, objs);
    forall j | 0 <= j < |objs| && ControllerEntry(objs[j]).Some?
      ensures Prop(objs[j], "controller-id") == Some(ControllerEntry(objs[j]).value.0)
      ensures HasPorts(ControllerEntry(objs[j]).value) <==> Ports(objs[j]) != []
    {
      KeptIffPorts(objs[j]);
    }
    FilterTraverseKeys(ControllerEntry, HasPorts, objs, id);
  }

  // ----- the component dispatch of `get_all` -----

  /** The `get_all` message for a component it has no loop for. */
  const BulkComponentError: string := "ERROR: You should provide the storage component (vdisks, disks, controllers)"

  /** The dict `get_all` builds for an exact component name; any other name exits, a missing PROPERTY crashes. */
  function BulkOf(tree: Element, component: Option<string>): Res<Bulk> {
    if component == Some("disks") then
      var ps := Traverse(DiskEntry, Items(tree, Disks));
      if ps.None? then Crash else Ok(DiskMap(ToMap(ps.value)))
    else if component == Some("vdisks") then
      var ps := Traverse(VdiskEntry, Items(tree, Vdisks));
      if ps.None? then Crash else Ok(VdiskMap(ToMap(ps.value)))
    else if component == Some("controllers") then
      var es := Traverse(ControllerEntry, Items(tree, Controllers));
      if es.None? then Crash else Ok(ControllerMap(ToMap(Filter(HasPorts, es.value))))
    else Exit(BulkComponentError)
  }

  /** The branch of `get_all` after the reply is accepted: runs the loop of the component. */
  method CollectBulk(tree: Element, component: Option<string>) returns (r: Res<Bulk>)
    ensures r == BulkOf(tree, component)
  {
    if component == Some("disks") {
      var m := BulkDisks(tree);
      r := if m.None? then Crash else Ok(DiskMap(m.value));
    } else if component == Some("vdisks") {
      var m := BulkVdisks(tree);
      r := if m.None? then Crash else Ok(VdiskMap(m.value));
    } else if component == Some("controllers") {
      var m := BulkControllers(tree);
      r := if m.None? then Crash else Ok(ControllerMap(m.value));
    } else {
      r := Exit(BulkComponentError);
    }
  }

  /**
   * Only the three names with a loop are accepted, by exact comparison;
   * `enclosures`, upper-case spellings and a missing component exit.
   */
  lemma BulkComponents(tree: Element, component: Option<string>)
    ensures BulkOf(tree, component).Exit? <==>
      component != Some("disks") && component != Some("vdisks") && component != Some("controllers")
    ensures BulkOf(tree, component).Exit? ==> BulkOf(tree, component).message == BulkComponentError
    ensures component == Some("disks") ==> (BulkOf(tree, component).Ok? <==>
      forall k :: 0 <= k < |Items(tree, Disks)| ==> DiskEntry(Items(tree, Disks)[k]).Some?)
  {
    TraverseSpec(DiskEntry, Items(tree, Disks));
  }

  /** The bulk disk dict has exactly one key per distinct drive location. */
  lemma BulkDiskKeys(objs: seq<Element>, loc: Option<string>)
    requires Traverse(DiskEntry, objs).Some?
    ensures loc in ToMap(Traverse(DiskEntry, objs).value)
        <==> exists j :: 0 <= j < |objs| && Prop(objs[j], "location") == Some(loc)
  {
    TraverseSpec(DiskEntry, objs);
    forall k | 0 <= k < |objs|
      ensures (DiskEntry(objs[k]).Some? && DiskEntry(objs[k]).value.0 == loc) <==> Prop(objs[k], "location") == Some(loc)
    {
      if DiskEntry(objs[k]).Some? {
        DiskEntryOf(objs[k]);
      }
    }
    TraverseKeys(DiskEntry, objs, loc);
  }

  /** The bulk vdisk dict has exactly one key per distinct virtual-disk name. */
  lemma BulkVdiskKeys(objs: seq<Element>, name: Option<string>)
    requires Traverse(VdiskEntry, objs).Some?
    ensures name in ToMap(Traverse(VdiskEntry, objs).value)
        <==> exists j :: 0 <= j < |objs| && Prop(objs[j], "name") == Some(name)
  {
    TraverseSpec(VdiskEntry, objs);
    forall k | 0 <= k < |objs|
      ensures (VdiskEntry(objs[k]).Some? && VdiskEntry(objs[k]).value.0 == name) <==> Prop(objs[k], "name") == Some(name)
    {
      if VdiskEntry(objs[k]).Some? {
        VdiskEntryOf(objs[k]);
      }
    }
    TraverseKeys(VdiskEntry, objs, name);
  }
}
