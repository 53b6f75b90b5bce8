/**
 * The request handlers of release 0.2.4, kept twice in the repository:
 * the archived copy (old_versions/0.2.4/zbx-hpmsa.py) and the released
 * one (0.2.4/zbx-hpmsa.py). Both read the session key by position, look a
 * health up by the PROPERTY's display name and build the discovery JSON
 * piece by piece from display names; the copies differ in their messages
 * and in what `get_value` gives for an unknown component.
 */
module Legacy024 {
  import opened Results
  import opened Xml
  import opened Text
  import opened Assoc
  import Json

  /** The archived copy and the released copy. */
  datatype Copy = Archived | Released

  /** The exit of `get_skey` for an empty key. */
  function ZeroLengthKey(c: Copy): string {
    match c
    case Archived => "ERROR: (get_skey) Got zero-length value for session key"
    case Released => "ERROR: Got zero-length value for session key"
  }

  /** The exit of `make_discovery` for an empty reply body. */
  function ZeroLengthXml(c: Copy): string {
    match c
    case Archived => "ERROR: (make_discovery) Got zero-length XML result"
    case Released => "ERROR: Got zero-length XML result"
  }

  /** `fromstring(reply)[0][2]`: the third child of the root's first child; None where indexing raises. */
  function KeyNode(reply: Element): Option<Element> {
    if |reply.children| == 0 || |reply.children[0].children| < 3 then None
    else Some(reply.children[0].children[2])
  }

  /** `get_skey`: the key node's text; a missing node or text raises, an empty text exits. */
  function Skey(c: Copy, reply: Element): (r: Res<string>)
    ensures r.Crash? <==> KeyNode(reply).None? || KeyNode(reply).value.text.None?
    ensures r.Exit? <==> KeyNode(reply).Some? && KeyNode(reply).value.text == Some("")
    ensures r.Exit? ==> r.message == ZeroLengthKey(c)
    ensures r.Ok? ==> r.value != "" && KeyNode(reply).value.text == Some(r.value)
  {
    var node := KeyNode(reply);
    if node.None? || node.value.text.None? then Crash
    else if |node.value.text.value| == 0 then Exit(ZeroLengthKey(c))
    else Ok(node.value.text.value)
  }

  /** The copies read the same key and differ only in the message of the empty-key exit. */
  lemma SkeyCopiesAgree(reply: Element)
    ensures Skey(Archived, reply).Ok? == Skey(Released, reply).Ok?
    ensures Skey(Archived, reply).Ok? ==> Skey(Archived, reply) == Skey(Released, reply)
    ensures Skey(Archived, reply).Crash? == Skey(Released, reply).Crash?
    ensures Skey(Archived, reply).Exit? ==> Skey(Archived, reply).message != Skey(Released, reply).message
  {
    assert |ZeroLengthKey(Archived)| != |ZeroLengthKey(Released)|;
  }

  // ----- get_value -----

  /** `prop.get('display-name') == name`. */
  predicate Displays(p: Element, name: string) {
    Get(p, "display-name") == Some(name)
  }

  /** The first of `ps` with display name `name`. */
  function FirstDisplayed(ps: seq<Element>, name: string): Option<Element> {
    if ps == [] then None
    else if Displays(ps[0], name) then Some(ps[0])
    else FirstDisplayed(ps[1..], name)
  }

  /** `obj.attrib['name'] in ('virtual-disk', 'drive')`; None where the attribute is missing (KeyError). */
  function IsDiskObject(o: Element): Option<bool> {
    var n := Get(o, "name");
    if n.None? then None else Some(n.value == "virtual-disk" || n.value == "drive")
  }

  /** The PROPERTY the scan returns for one OBJECT: its first `Health` descendant, if it is a disk object. */
  function HealthOf(o: Element): Option<Element>
    requires IsDiskObject(o).Some?
  {
    if IsDiskObject(o).value then FirstDisplayed(Iter(o, "PROPERTY"), "Health") else None
  }

  /** The nested scan over the top-level OBJECTs: the first hit is returned, the end of the list gives None. */
  function HealthScan(objs: seq<Element>): Res<Option<string>> {
    if objs == [] then Ok(None)
    else if IsDiskObject(objs[0]).None? then Crash
    else if HealthOf(objs[0]).Some? then Ok(HealthOf(objs[0]).value.text)
    else HealthScan(objs[1..])
  }

  /**
   * The reference behaviour of `get_value`: for vdisks and for disks the
   * same scan of every top-level OBJECT; another component gives a
   * message (archived copy) or None (released copy).
   */
  function Value(c: Copy, component: Option<string>, reply: Element): Res<Option<string>> {
    if component == Some("vdisks") || component == Some("disks") then HealthScan(Tagged(reply.children, "OBJECT"))
    else if c == Archived then Ok(Some("Wrong component: " + Str(component)))
    else Ok(None)
  }

  /** `get_value(storage, sessionkey, component, item)`; the URL always carries the item. */
  method GetValue(c: Copy, storage: string, component: Option<string>, item: string, reply: Element)
    returns (r: Res<Option<string>>, url: string)
    ensures url == "http://" + storage + "/api/show/" + Str(component) + "/" + item
    ensures r == Value(c, component, reply)
  {
    url := "http://" + storage + "/api/show/" + Str(component) + "/" + item;
    if !(component == Some("vdisks") || component == Some("disks")) {
      r := if c == Archived then Ok(Some("Wrong component: " + Str(component))) else Ok(None);
      return;
    }
    r := Scan(Tagged(reply.children, "OBJECT"));
  }

  /** The outer loop: `for obj in findall('OBJECT')`, returning at the first hit. */
  method Scan(objs: seq<Element>) returns (r: Res<Option<string>>)
    ensures r == HealthScan(objs)
  {
    var i := 0;
    while i < |objs|
      invariant 0 <= i <= |objs|
      invariant HealthScan(objs[i..]) == HealthScan(objs)
    {
      var obj := objs[i];
      assert objs[i..][1..] == objs[i + 1..];
      if "name" !in obj.attrs {
        return Crash;
      }
      if obj.attrs["name"] == "virtual-disk" || obj.attrs["name"] == "drive" {
        var hit := FirstHealth(Iter(obj, "PROPERTY"));
        if hit.Some? {
          return Ok(hit.value.text);
        }
      }
      i := i + 1;
    }
    r := Ok(None);
  }

  /** The inner loop: `for prop in obj.iter('PROPERTY')`, stopping at the first `Health`. */
  method FirstHealth(props: seq<Element>) returns (hit: Option<Element>)
    ensures hit == FirstDisplayed(props, "Health")
  {
    var k := 0;
    while k < |props|
      invariant 0 <= k <= |props|
      invariant FirstDisplayed(props[k..], "Health") == FirstDisplayed(props, "Health")
    {
      assert props[k..][1..] == props[k + 1..];
      if Get(props[k], "display-name") == Some("Health") {
        return Some(props[k]);
      }
      k := k + 1;
    }
    hit := None;
  }

  /** The first PROPERTY with the display name, and only it, is found. */
  lemma {:induction false} FirstDisplayedAt(ps: seq<Element>, name: string, i: nat)
    requires i < |ps| && Displays(ps[i], name)
    requires forall j :: 0 <= j < i ==> !Displays(ps[j], name)
    ensures FirstDisplayed(ps, name) == Some(ps[i])
  {
    if i > 0 {
      assert !Displays(ps[0], name);
      FirstDisplayedAt(ps[1..], name, i - 1);
    }
  }

  /** No PROPERTY with the display name: nothing is found. */
  lemma {:induction false} FirstDisplayedNone(ps: seq<Element>, name: string)
    requires forall j :: 0 <= j < |ps| ==> !Displays(ps[j], name)
    ensures FirstDisplayed(ps, name).None?
  {
    if ps != [] {
      assert !Displays(ps[0], name);
      FirstDisplayedNone(ps[1..], name);
    }
  }

  /**
   * The scan returns the text of the first `Health` PROPERTY of the first
   * disk OBJECT that has one, provided every OBJECT before it has a name.
   */
  lemma {:induction false} ScanFinds(objs: seq<Element>, i: nat)
    requires i < |objs|
    requires forall j :: 0 <= j <= i ==> IsDiskObject(objs[j]).Some?
    requires forall j :: 0 <= j < i ==> HealthOf(objs[j]).None?
    requires HealthOf(objs[i]).Some?
    ensures HealthScan(objs) == Ok(HealthOf(objs[i]).value.text)
  {
    if i > 0 {
      assert IsDiskObject(objs[0]).Some? && HealthOf(objs[0]).None?;
      ScanFinds(objs[1..], i - 1);
    }
  }

  /** No disk OBJECT has a `Health` PROPERTY and every OBJECT has a name: the scan gives None. */
  lemma {:induction false} ScanMisses(objs: seq<Element>)
    requires forall j :: 0 <= j < |objs| ==> IsDiskObject(objs[j]).Some? && HealthOf(objs[j]).None?
    ensures HealthScan(objs) == Ok(None)
  {
    if objs != [] {
      assert IsDiskObject(objs[0]).Some? && HealthOf(objs[0]).None?;
      ScanMisses(objs[1..]);
    }
  }

  /** An OBJECT without a name reached before any hit raises KeyError. */
  lemma {:induction false} ScanCrashes(objs: seq<Element>, i: nat)
    requires i < |objs| && IsDiskObject(objs[i]).None?
    requires forall j :: 0 <= j < i ==> IsDiskObject(objs[j]).Some? && HealthOf(objs[j]).None?
    ensures HealthScan(objs).Crash?
  {
    if i > 0 {
      assert IsDiskObject(objs[0]).Some? && HealthOf(objs[0]).None?;
      ScanCrashes(objs[1..], i - 1);
    }
  }

  /**
   * The scan does not depend on the component: a `drive` OBJECT answers a
   * vdisks request and a `virtual-disk` one a disks request. Another
   * component is answered without looking at the reply.
   */
  lemma ValueComponents(c: Copy, component: Option<string>, reply: Element)
    ensures Value(c, Some("vdisks"), reply) == Value(c, Some("disks"), reply)
    ensures component != Some("vdisks") && component != Some("disks") ==>
      Value(c, component, reply) == if c == Archived then Ok(Some("Wrong component: " + Str(component))) else Ok(None)
  {
  }

  // ----- make_discovery -----

  /** The piece a vdisk PROPERTY adds: a whole record and a comma for a `Name`, nothing otherwise. */
  function VdiskPiece(p: Element): string {
    if Displays(p, "Name") then "{\"{#VDISKNAME}\":\"" + Str(p.text) + "\"}," else ""
  }

  /** The pieces a drive PROPERTY adds: `Location` opens a record, `Serial Number` closes it. */
  function DiskPiece(p: Element): string {
    (if Displays(p, "Location") then "{\"{#DISKLOCATION}\":\"" + Str(p.text) + "\"," else "")
    + (if Displays(p, "Serial Number") then "\"{#DISKSN}\":\"" + Str(p.text) + "\"}," else "")
  }

  /** What the inner loop adds for one top-level OBJECT: the pieces of its PROPERTYs if it is named `name`. */
  function ObjectText(o: Element, name: string, piece: Element -> string): string {
    if Get(o, "name") == Some(name) then Concat(piece, Iter(o, "PROPERTY")) else ""
  }

  /** `json_body` after the outer loop over `objs`. */
  function BodyText(objs: seq<Element>, name: string, piece: Element -> string): string {
    if objs == [] then ""
    else BodyText(objs[..|objs| - 1], name, piece) + ObjectText(objs[|objs| - 1], name, piece)
  }

  /** Vdisks: the last `},` is replaced by `}`. */
  function VdiskJson(root: Element): string {
    var body := BodyText(Tagged(root.children, "OBJECT"), "virtual-disk", VdiskPiece);
    "{\"data\":[" + (StripEnd(body, "},") + "}") + "]}"
  }

  /** Disks: one trailing comma is stripped. */
  function DiskJson(root: Element): string {
    var body := BodyText(Tagged(root.children, "OBJECT"), "drive", DiskPiece);
    "{\"data\":[" + StripEnd(body, ",") + "]}"
  }

  /**
   * The reference behaviour of `make_discovery`: an empty body exits, a
   * None component raises at `len(None)`, vdisks and disks are built from
   * display names, and any other component falls off the end (None).
   */
  function Discovery(c: Copy, component: Option<string>, body: Body): Res<Option<string>> {
    if body.EmptyBody? then Exit(ZeroLengthXml(c))
    else if component.None? then Crash
    else if component.value == "vdisks" then Ok(Some(VdiskJson(body.root)))
    else if component.value == "disks" then Ok(Some(DiskJson(body.root)))
    else Ok(None)
  }

  /** `make_discovery(storage, sessionkey, component)`. */
  method MakeDiscovery(c: Copy, storage: string, component: Option<string>, body: Body)
    returns (r: Res<Option<string>>, url: string)
    ensures url == "http://" + storage + "/api/show/" + Str(component)
    ensures r == Discovery(c, component, body)
  {
    url := "http://" + storage + "/api/show/" + Str(component);
    if body.EmptyBody? {
      return Exit(ZeroLengthXml(c)), url;
    }
    if component.None? {
      return Crash, url;
    }
    var objs := Tagged(body.root.children, "OBJECT");
    if component.value == "vdisks" {
      var jsonBody := Accumulate(objs, "virtual-disk", VdiskPiece);
      jsonBody := StripEnd(jsonBody, "},") + "}";
      r := Ok(Some("{\"data\":[" + jsonBody + "]}"));
    } else if component.value == "disks" {
      var jsonBody := Accumulate(objs, "drive", DiskPiece);
      jsonBody := StripEnd(jsonBody, ",");
      r := Ok(Some("{\"data\":[" + jsonBody + "]}"));
    } else {
      r := Ok(None);
    }
  }

  /** The nested loops: `json_body += piece` for every PROPERTY of every OBJECT named `name`. */
  method Accumulate(objs: seq<Element>, name: string, piece: Element -> string) returns (jsonBody: string)
    ensures jsonBody == BodyText(objs, name, piece)
  {
    jsonBody := "";
    var i := 0;
    while i < |objs|
      invariant 0 <= i <= |objs|
      invariant jsonBody == BodyText(objs[..i], name, piece)
    {
      var obj := objs[i];
      assert objs[..i + 1][..i] == objs[..i];
      if Get(obj, "name") == Some(name) {
        var text := PropertyPieces(Iter(obj, "PROPERTY"), piece);
        jsonBody := jsonBody + text;
      } else {
        assert BodyText(objs[..i + 1], name, piece) == BodyText(objs[..i], name, piece) + "";
      }
      i := i + 1;
    }
    assert objs[..i] == objs;
  }

  /** The inner loop: `json_body += piece` for every PROPERTY of one OBJECT, in `iter` order. */
  method PropertyPieces(props: seq<Element>, piece: Element -> string) returns (text: string)
    ensures text == Concat(piece, props)
  {
    text := "";
    var k := 0;
    while k < |props|
      invariant 0 <= k <= |props|
      invariant text == Concat(piece, props[..k])
    {
      assert props[..k + 1] == props[..k] + [props[k]];
      ConcatSnoc(piece, props[..k], props[k]);
      text := text + piece(props[k]);
      k := k + 1;
    }
    assert props[..k] == props;
  }

  // ----- what the discovery text is -----

  /** The vdisk records: one per `Name` PROPERTY, in document order. */
  function NameRecords(ps: seq<Element>): seq<Json.Record> {
    if ps == [] then []
    else
      var p := ps[|ps| - 1];
      NameRecords(ps[..|ps| - 1]) + (if Displays(p, "Name") then [[("{#VDISKNAME}", Str(p.text))]] else [])
  }

  /** The vdisk records of every `virtual-disk` OBJECT, in document order. */
  function VdiskRecords(objs: seq<Element>): seq<Json.Record> {
    if objs == [] then []
    else
      var o := objs[|objs| - 1];
      VdiskRecords(objs[..|objs| - 1]) + (if Get(o, "name") == Some("virtual-disk") then NameRecords(Iter(o, "PROPERTY")) else [])
  }

  /** A record of fields followed by a comma, as one piece. */
  lemma OneRecord(r: Json.Record)
    ensures Suffixed(Json.RecordsText([r]), ",") == Json.RecordText(r) + ","
  {
    assert Json.RecordsText([r]) == [Json.RecordText(r)] + Json.RecordsText([]);
    assert Suffixed([Json.RecordText(r)], ",") == Json.RecordText(r) + "," + Suffixed([], ",");
  }

  /** The records texts of a concatenation, each followed by a comma. */
  lemma RecordsAppend(a: seq<Json.Record>, b: seq<Json.Record>)
    ensures Suffixed(Json.RecordsText(a + b), ",") == Suffixed(Json.RecordsText(a), ",") + Suffixed(Json.RecordsText(b), ",")
  {
    Json.RecordsTextAppend(a, b);
    SuffixedAppend(Json.RecordsText(a), Json.RecordsText(b), ",");
  }

  /** The format string of the vdisk loop spells the record's JSON text and a comma. */
  lemma NameLiteral(name: string)
    ensures "{\"{#VDISKNAME}\":\"" + name + "\"}," == "{" + Json.Field(("{#VDISKNAME}", name)) + "}" + ","
  {
    var open: string := "{\"{#VDISKNAME}\":\"";
    assert open == "{" + "\"" + "{#VDISKNAME}" + "\":\"";
  }

  /** A `Name` piece is its record's JSON text and a comma. */
  lemma VdiskPieceIsRecord(p: Element)
    requires Displays(p, "Name")
    ensures VdiskPiece(p) == Json.RecordText([("{#VDISKNAME}", Str(p.text))]) + ","
  {
    var f := ("{#VDISKNAME}", Str(p.text));
    assert Json.FieldsOf([f]) == [Json.Field(f)] + Json.FieldsOf([]);
    assert Join([Json.Field(f)], ",") == Json.Field(f);
    NameLiteral(Str(p.text));
  }

  /** The pieces of one OBJECT's PROPERTYs are its `Name` records, each followed by a comma. */
  lemma {:induction false} NamePieces(ps: seq<Element>)
    ensures Concat(VdiskPiece, ps) == Suffixed(Json.RecordsText(NameRecords(ps)), ",")
  {
    if ps != [] {
      var init, p := ps[..|ps| - 1], ps[|ps| - 1];
      NamePieces(init);
      if Displays(p, "Name") {
        var r: Json.Record := [("{#VDISKNAME}", Str(p.text))];
        RecordsAppend(NameRecords(init), [r]);
        OneRecord(r);
        VdiskPieceIsRecord(p);
      } else {
        assert VdiskPiece(p) == "";
        assert NameRecords(ps) == NameRecords(init) + [] == NameRecords(init);
        assert Concat(VdiskPiece, ps) == Concat(VdiskPiece, init) + "" == Concat(VdiskPiece, init);
      }
    }
  }

  /** The vdisk body is every vdisk record followed by a comma. */
  lemma {:induction false} VdiskBody(objs: seq<Element>)
    ensures BodyText(objs, "virtual-disk", VdiskPiece) == Suffixed(Json.RecordsText(VdiskRecords(objs)), ",")
  {
    if objs != [] {
      var init, o := objs[..|objs| - 1], objs[|objs| - 1];
      VdiskBody(init);
      if Get(o, "name") == Some("virtual-disk") {
        NamePieces(Iter(o, "PROPERTY"));
        RecordsAppend(VdiskRecords(init), NameRecords(Iter(o, "PROPERTY")));
      } else {
        assert VdiskRecords(objs) == VdiskRecords(init) + [] == VdiskRecords(init);
        assert ObjectText(o, "virtual-disk", VdiskPiece) == "";
        assert BodyText(objs, "virtual-disk", VdiskPiece) == BodyText(init, "virtual-disk", VdiskPiece) + "" == BodyText(init, "virtual-disk", VdiskPiece);
      }
    }
  }

  /**
   * With at least one vdisk name the output is the JSON `{"data": L}` of
   * the name records in document order; with none it is `{"data":[}]}`.
   */
  lemma VdiskDiscovery(root: Element)
    ensures var rs := VdiskRecords(Tagged(root.children, "OBJECT"));
      && (rs != [] ==> VdiskJson(root) == Json.DataText(rs))
      && (rs == [] ==> VdiskJson(root) == "{\"data\":[}]}")
  {
    var rs := VdiskRecords(Tagged(root.children, "OBJECT"));
    VdiskBody(Tagged(root.children, "OBJECT"));
    var texts := Json.RecordsText(rs);
    if rs == [] {
      assert Suffixed(texts, ",") == "";
      assert StripEnd("", "},") == "";
    } else {
      Json.DataEndsWithBrace(rs);
      SuffixedIsJoin(texts, ",");
      var j := Join(texts, ",");
      var front := j[..|j| - 1];
      assert j == front + "}";
      assert j + "," == front + "},";
      StripEndAppended(front, "},");
    }
  }

  /** A PROPERTY the disk loop writes something for. */
  predicate Marked(p: Element) {
    Displays(p, "Location") || Displays(p, "Serial Number")
  }

  /** The record of one drive whose marked PROPERTYs are a `Location` and then a `Serial Number`. */
  function DrivePair(o: Element): Option<Json.Record> {
    var ms := Filter(Marked, Iter(o, "PROPERTY"));
    if |ms| == 2 && Displays(ms[0], "Location") && Displays(ms[1], "Serial Number")
    then Some([("{#DISKLOCATION}", Str(ms[0].text)), ("{#DISKSN}", Str(ms[1].text))])
    else None
  }

  /** A top-level OBJECT the disk loop reads: one named `drive`. */
  function IsDrive(o: Element): bool {
    Get(o, "name") == Some("drive")
  }

  /** Only the marked PROPERTYs write anything. */
  lemma {:induction false} UnmarkedSilent(ps: seq<Element>)
    ensures Concat(DiskPiece, ps) == Concat(DiskPiece, Filter(Marked, ps))
  {
    if ps != [] {
      var init, p := ps[..|ps| - 1], ps[|ps| - 1];
      UnmarkedSilent(init);
      FilterSnoc(Marked, init, p);
      assert ps == init + [p];
      if Marked(p) {
        ConcatSnoc(DiskPiece, Filter(Marked, init), p);
      } else {
        assert Filter(Marked, ps) == Filter(Marked, init) + [] == Filter(Marked, init);
        assert DiskPiece(p) == "" + "" == "";
        assert Concat(DiskPiece, ps) == Concat(DiskPiece, init) + "" == Concat(DiskPiece, init);
      }
    }
  }

  /** A two-field record's JSON text. */
  lemma PairText(a: (string, string), b: (string, string))
    ensures Json.RecordText([a, b]) == "{" + Json.Field(a) + "," + Json.Field(b) + "}"
  {
    assert Json.FieldsOf([a, b]) == [Json.Field(a), Json.Field(b)] by {
      assert [a, b][1..] == [b];
      assert Json.FieldsOf([b]) == [Json.Field(b)] + Json.FieldsOf([]);
    }
    assert Join([Json.Field(a), Json.Field(b)], ",") == Json.Field(a) + "," + Json.Field(b) by {
      assert [Json.Field(a), Json.Field(b)][1..] == [Json.Field(b)];
    }
  }

  /** The `Location` format string opens the record and writes its first field and a comma. */
  lemma LocationLiteral(loc: string)
    ensures "{\"{#DISKLOCATION}\":\"" + loc + "\"," == "{" + Json.Field(("{#DISKLOCATION}", loc)) + ","
  {
    var open: string := "{\"{#DISKLOCATION}\":\"";
    assert open == "{" + "\"" + "{#DISKLOCATION}" + "\":\"";
  }

  /** The `Serial Number` format string writes the second field, closes the record and adds a comma. */
  lemma SerialLiteral(sn: string)
    ensures "\"{#DISKSN}\":\"" + sn + "\"}," == Json.Field(("{#DISKSN}", sn)) + "}" + ","
  {
    var key: string := "\"{#DISKSN}\":\"";
    assert key == "\"" + "{#DISKSN}" + "\":\"";
  }

  /** The two format strings of the disk loop, together, spell the record's JSON text and a comma. */
  lemma PairLiterals(loc: string, sn: string)
    ensures "{\"{#DISKLOCATION}\":\"" + loc + "\"," + ("\"{#DISKSN}\":\"" + sn + "\"},")
         == "{" + Json.Field(("{#DISKLOCATION}", loc)) + "," + Json.Field(("{#DISKSN}", sn)) + "}" + ","
  {
    LocationLiteral(loc);
    SerialLiteral(sn);
  }

  /** A `Location` followed by a `Serial Number` writes their record and a comma. */
  lemma PairPieces(l: Element, sn: Element)
    requires Displays(l, "Location") && Displays(sn, "Serial Number")
    ensures Concat(DiskPiece, [l, sn]) == Json.RecordText([("{#DISKLOCATION}", Str(l.text)), ("{#DISKSN}", Str(sn.text))]) + ","
  {
    assert !Displays(l, "Serial Number") && !Displays(sn, "Location");
    assert DiskPiece(l) == "{\"{#DISKLOCATION}\":\"" + Str(l.text) + "\",";
    assert DiskPiece(sn) == "\"{#DISKSN}\":\"" + Str(sn.text) + "\"},";
    assert [l, sn] == [l] + [sn];
    ConcatSnoc(DiskPiece, [l], sn);
    assert [l] == [] + [l];
    ConcatSnoc(DiskPiece, [], l);
    PairText(("{#DISKLOCATION}", Str(l.text)), ("{#DISKSN}", Str(sn.text)));
    PairLiterals(Str(l.text), Str(sn.text));
  }

  /** A drive with its `Location`-`Serial Number` pair writes one record and a comma. */
  lemma DriveText(o: Element)
    requires IsDrive(o) && DrivePair(o).Some?
    ensures ObjectText(o, "drive", DiskPiece) == Json.RecordText(DrivePair(o).value) + ","
  {
    var ms := Filter(Marked, Iter(o, "PROPERTY"));
    UnmarkedSilent(Iter(o, "PROPERTY"));
    assert ms == [ms[0], ms[1]];
    PairPieces(ms[0], ms[1]);
  }

  /** The disk body is every drive's record followed by a comma. */
  lemma {:induction false} DiskBody(objs: seq<Element>)
    requires Traverse(DrivePair, Filter(IsDrive, objs)).Some?
    ensures BodyText(objs, "drive", DiskPiece) == Suffixed(Json.RecordsText(Traverse(DrivePair, Filter(IsDrive, objs)).value), ",")
  {
    if objs != [] {
      var init, o := objs[..|objs| - 1], objs[|objs| - 1];
      assert objs == init + [o];
      FilterSnoc(IsDrive, init, o);
      if IsDrive(o) {
        TraverseSnoc(DrivePair, Filter(IsDrive, init), o);
        DiskBody(init);
        DriveText(o);
        RecordsAppend(Traverse(DrivePair, Filter(IsDrive, init)).value, [DrivePair(o).value]);
        OneRecord(DrivePair(o).value);
      } else {
        assert Filter(IsDrive, objs) == Filter(IsDrive, init) + [] == Filter(IsDrive, init);
        DiskBody(init);
        assert BodyText(objs, "drive", DiskPiece) == BodyText(init, "drive", DiskPiece) + "";
      }
    }
  }

  /**
   * When every drive yields a `Location` and then a `Serial Number`, the
   * output is the JSON `{"data": L}` of their records in document order
   * (in particular `{"data":[]}` without drives).
   */
  lemma DiskDiscovery(root: Element)
    requires Traverse(DrivePair, Filter(IsDrive, Tagged(root.children, "OBJECT"))).Some?
    ensures DiskJson(root) == Json.DataText(Traverse(DrivePair, Filter(IsDrive, Tagged(root.children, "OBJECT"))).value)
  {
    var rs := Traverse(DrivePair, Filter(IsDrive, Tagged(root.children, "OBJECT"))).value;
    DiskBody(Tagged(root.children, "OBJECT"));
    var texts := Json.RecordsText(rs);
    if texts == [] {
      assert Suffixed(texts, ",") == "" && Join(texts, ",") == "";
      assert StripEnd("", ",") == "";
    } else {
      SuffixedIsJoin(texts, ",");
      StripEndAppended(Join(texts, ","), ",");
    }
  }

  /** An empty body exits with the copy's own message, before the component is looked at. */
  lemma EmptyBodyExits(c: Copy, component: Option<string>)
    ensures Discovery(c, component, EmptyBody) == Exit(ZeroLengthXml(c))
    ensures c == Released ==> Discovery(c, component, EmptyBody) == Exit("ERROR: Got zero-length XML result")
  {
  }
}
