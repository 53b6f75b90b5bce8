/**
 * The request handlers of the current script (zbx-hpmsa.py): reading the
 * envelope of a reply, the health of one item, discovery and the bulk
 * dict. Every handler is given the already-parsed reply to the one request
 * it makes and reports the URL it requested (None when it stops before
 * making a request).
 */
module Msa {
  import opened Results
  import opened Xml
  import opened Text
  import opened Assoc
  import opened Api
  import opened Mappers
  import Json

  /** The text of the AttributeError a missing status PROPERTY raises, as `query_xmlapi` reports it. */
  const ParseError: string := "ERROR: query_xmlapi : Cannot parse XML. 'NoneType' object has no attribute 'text'"

  /** `query_xmlapi`: the envelope, or an exit when the status OBJECT lacks either PROPERTY. */
  function QueryXmlApi(root: Element): (r: Res<Envelope>)
    ensures r.Ok? || r == Exit(ParseError)
    ensures r.Ok? <==> FindPath(root, "status", "return-code").Some? && FindPath(root, "status", "response").Some?
    ensures r.Ok? ==> Some(r.value) == ReadStatus(root)
  {
    var status := ReadStatus(root);
    if status.None? then Exit(ParseError) else Ok(status.value)
  }

  /** An outcome together with the URL requested on the way (None: no request was made). */
  datatype Reply<T> = Reply(result: Res<T>, url: Option<string>)

  /** The OBJECT name of a single disk or vdisk reply. */
  function ItemObject(component: string): string {
    if component == "vdisks" then "virtual-disk" else "drive"
  }

  /** The error of `get_health` for an unknown component. */
  function WrongComponent(component: Option<string>): string {
    "ERROR: Wrong component \"" + Str(component) + "\""
  }

  /** The reference behaviour of `get_health(storage, sessionkey, component, item)`. */
  function Health(storage: string, component: Option<string>, item: string, reply: Element): Reply<Option<string>> {
    if component == Some("vdisks") || component == Some("disks") then
      var url := "http://" + storage + "/api/show/" + component.value + "/" + item;
      var q := QueryXmlApi(reply);
      if !q.Ok? then Reply(Propagate(q), Some(url))
      else
        var node := FindPath(q.value.tree, ItemObject(component.value), "health");
        if node.None? then Reply(Exit("ERROR: No such id: '" + item + "'"), Some(url))
        else Reply(Ok(node.value.text), Some(url))
    else if component == Some("controllers") || component == Some("enclosures") then
      var url := "http://" + storage + "/api/show/" + component.value;
      var q := QueryXmlApi(reply);
      if !q.Ok? then Reply(Propagate(q), Some(url))
      else
        var dict := ToMapOpt(Traverse(HealthEntryFn(GroupId(component)), Items(q.value.tree, GroupKind(component))));
        if dict.None? then Reply(Crash, Some(url))
        else if Some(item) in dict.value then Reply(Ok(dict.value[Some(item)]), Some(url))
        else Reply(Exit("ERROR: No such id: '" + item + "'."), Some(url))
    else Reply(Exit(WrongComponent(component)), None)
  }

  /** `get_health`: the controllers and enclosures branch fills `health_dict` in a loop. */
  method GetHealth(storage: string, component: Option<string>, item: string, reply: Element)
    returns (r: Res<Option<string>>, url: Option<string>)
    ensures Reply(r, url) == Health(storage, component, item, reply)
  {
    if component == Some("vdisks") || component == Some("disks") {
      url := Some("http://" + storage + "/api/show/" + component.value + "/" + item);
      var q := QueryXmlApi(reply);
      if !q.Ok? {
        r := Propagate(q);
        return;
      }
      var node := FindPath(q.value.tree, ItemObject(component.value), "health");
      if node.None? {
        r := Exit("ERROR: No such id: '" + item + "'");
      } else {
        r := Ok(node.value.text);
      }
    } else if component == Some("controllers") || component == Some("enclosures") {
      url := Some("http://" + storage + "/api/show/" + component.value);
      var q := QueryXmlApi(reply);
      if !q.Ok? {
        r := Propagate(q);
        return;
      }
      var dict := HealthById(Items(q.value.tree, GroupKind(component)), GroupId(component));
      if dict.None? {
        r := Crash;
      } else if Some(item) in dict.value {
        r := Ok(dict.value[Some(item)]);
      } else {
        r := Exit("ERROR: No such id: '" + item + "'.");
      }
    } else {
      r, url := Exit(WrongComponent(component)), None;
    }
  }

  /** A component other than the four known ones is rejected before any request. */
  lemma HealthRejectsUnknown(storage: string, component: Option<string>, item: string, reply: Element)
    ensures Health(storage, component, item, reply).url.None? <==>
      component !in {Some("vdisks"), Some("disks"), Some("controllers"), Some("enclosures")}
    ensures Health(storage, component, item, reply).url.None? ==>
      Health(storage, component, item, reply).result == Exit(WrongComponent(component))
  {
  }

  /**
   * Disks and vdisks: the item is in the URL and the return code is not
   * looked at; the result is the first `health` PROPERTY of the first
   * `drive`/`virtual-disk` OBJECT that has one, and "No such id" when none
   * has.
   */
  lemma HealthOfOneItem(storage: string, component: Option<string>, item: string, reply: Element)
    requires component == Some("vdisks") || component == Some("disks")
    requires ReadStatus(reply).Some?
    ensures var h := Health(storage, component, item, reply);
      var kind := if component == Some("vdisks") then Vdisks else Disks;
      var objs := Items(reply, kind);
      && h.url == Some("http://" + storage + "/api/show/" + component.value + "/" + item)
      && (h.result.Exit? <==> forall i :: 0 <= i < |objs| ==> Children(objs[i], "PROPERTY", "health") == [])
      && (h.result.Exit? ==> h.result.message == "ERROR: No such id: '" + item + "'")
      && (h.result.Ok? ==>
            exists i :: 0 <= i < |objs| && Children(objs[i], "PROPERTY", "health") != []
                        && (forall j :: 0 <= j < i ==> Children(objs[j], "PROPERTY", "health") == [])
                        && h.result.value == Children(objs[i], "PROPERTY", "health")[0].text)
  {
    var kind := if component == Some("vdisks") then Vdisks else Disks;
    var objs := Items(reply, kind);
    assert Items(reply, kind) == Select(reply.children, "OBJECT", "name", ItemObject(component.value));
    SelectFromEmpty(objs, "PROPERTY", "name", "health");
    if SelectFrom(objs, "PROPERTY", "name", "health") != [] {
      SelectFromFirst(objs, "PROPERTY", "name", "health");
    }
  }

  /** The kind of item a controllers/enclosures reply lists. */
  function GroupKind(component: Option<string>): Kind {
    if component == Some("controllers") then Controllers else Enclosures
  }

  /** The PROPERTY the id -> health dict of that reply is keyed on. */
  function GroupId(component: Option<string>): IdProp {
    if component == Some("controllers") then ControllerId else EnclosureId
  }

  /**
   * Controllers and enclosures: the id -> health dict is built from every
   * item; the item is found exactly when some controller-id/enclosure-id
   * equals it, and then the health of the LAST item with that id is
   * returned.
   */
  lemma HealthOfGroup(storage: string, component: Option<string>, item: string, reply: Element, j: nat)
    requires component == Some("controllers") || component == Some("enclosures")
    requires ReadStatus(reply).Some?
    requires var objs := Items(reply, GroupKind(component));
      forall k :: 0 <= k < |objs| ==> Prop(objs[k], IdName(GroupId(component))).Some? && Prop(objs[k], "health").Some?
    ensures var h := Health(storage, component, item, reply);
      var objs := Items(reply, GroupKind(component));
      var idName := IdName(GroupId(component));
      && h.url == Some("http://" + storage + "/api/show/" + component.value)
      && (h.result.Ok? <==> exists k :: 0 <= k < |objs| && Prop(objs[k], idName) == Some(Some(item)))
      && (!h.result.Ok? ==> h.result == Exit("ERROR: No such id: '" + item + "'."))
      && (j < |objs| && Prop(objs[j], idName) == Some(Some(item))
          && (forall k :: j < k < |objs| ==> Prop(objs[k], idName) != Some(Some(item)))
          ==> h.result == Ok(Prop(objs[j], "health").value))
  {
    var objs := Items(reply, GroupKind(component));
    var idProp := GroupId(component);
    HealthDictBuilt(objs, idProp);
    HealthKeys(objs, idProp, Some(item));
    if j < |objs| && Prop(objs[j], IdName(idProp)) == Some(Some(item))
       && (forall k :: j < k < |objs| ==> Prop(objs[k], IdName(idProp)) != Some(Some(item))) {
      HealthOfLast(objs, idProp, j);
    }
  }

  // ----- make_discovery -----

  /** The kind a lower-cased component name selects for discovery. */
  function DiscoveryKind(lower: string): Option<Kind> {
    if lower == "vdisks" then Some(Vdisks)
    else if lower == "disks" then Some(Disks)
    else if lower == "controllers" then Some(Controllers)
    else if lower == "enclosures" then Some(Enclosures)
    else None
  }

  /**
   * The reference behaviour of `make_discovery`: the list `L` of
   * `{"data": L}`. The component is formatted into the URL as is and
   * lower-cased for the dispatch; a missing component makes `len(None)`
   * raise once the reply is accepted.
   */
  function Discovery(storage: string, component: Option<string>, reply: Element): Reply<seq<Json.Record>> {
    var url := Some("http://" + storage + "/api/show/" + Str(component));
    var q := QueryXmlApi(reply);
    if !q.Ok? then Reply(Propagate(q), url)
    else if q.value.code != Some("0") then Reply(Exit("ERROR: " + Str(q.value.description)), url)
    else if component.None? then Reply(Crash, url)
    else
      var kind := DiscoveryKind(Lower(component.value));
      if kind.None? then Reply(Ok([]), url)
      else
        var rs := Traverse(RecordFn(kind.value), Items(q.value.tree, kind.value));
        if rs.None? then Reply(Crash, url) else Reply(Ok(rs.value), url)
  }

  /** `make_discovery`: the per-kind loop appends one record per item. */
  method MakeDiscovery(storage: string, component: Option<string>, reply: Element)
    returns (r: Res<seq<Json.Record>>, url: Option<string>)
    ensures Reply(r, url) == Discovery(storage, component, reply)
  {
    url := Some("http://" + storage + "/api/show/" + Str(component));
    var q := QueryXmlApi(reply);
    if !q.Ok? {
      r := Propagate(q);
    } else if q.value.code != Some("0") {
      r := Exit("ERROR: " + Str(q.value.description));
    } else if component.None? {
      r := Crash;
    } else {
      var kind := DiscoveryKind(Lower(component.value));
      if kind.None? {
        r := Ok([]);
      } else {
        var rs := Discover(q.value.tree, kind.value);
        r := if rs.None? then Crash else Ok(rs.value);
      }
    }
  }

  /**
   * Discovery refuses a non-zero return code with its description;
   * otherwise it gives one record per OBJECT of the kind, in document
   * order, each with exactly the kind's keys, and `{"data":[]}` when there
   * are none or the component is unknown.
   */
  lemma DiscoveryRules(storage: string, component: Option<string>, reply: Element)
    requires ReadStatus(reply).Some?
    ensures var d := Discovery(storage, component, reply);
      var env := ReadStatus(reply).value;
      && (env.code != Some("0") ==> d.result == Exit("ERROR: " + Str(env.description)))
      && (env.code == Some("0") && component.Some? && DiscoveryKind(Lower(component.value)).None? ==>
            (d.result == Ok([]) && Json.DataText(d.result.value) == "{\"data\":[]}"))
      && (env.code == Some("0") && component.Some? && DiscoveryKind(Lower(component.value)).Some? ==>
            var k := DiscoveryKind(Lower(component.value)).value;
            && (d.result.Ok? <==> forall i :: 0 <= i < |Items(reply, k)| ==> RecordFn(k)(Items(reply, k)[i]).Some?)
            && (d.result.Ok? ==>
                  |d.result.value| == |Items(reply, k)|
                  && forall i :: 0 <= i < |d.result.value| ==> KeysOf(d.result.value[i]) == DiscoveryKeys(k))
            && (Items(reply, k) == [] ==> (d.result == Ok([]) && Json.DataText(d.result.value) == "{\"data\":[]}")))
  {
    if component.Some? && DiscoveryKind(Lower(component.value)).Some? {
      DiscoveryShape(reply, DiscoveryKind(Lower(component.value)).value);
    }
  }

  /** The component is matched case-insensitively: any spelling gives the result of its lower-case form. */
  lemma DiscoveryCaseFree(storage: string, c: string, reply: Element)
    ensures Discovery(storage, Some(c), reply).result == Discovery(storage, Some(Lower(c)), reply).result
  {
    LowerIdem(c);
  }

  // ----- get_all -----

  /** The reference behaviour of `get_all`: return code '0' is required, then the component's dict. */
  function All(storage: string, component: Option<string>, reply: Element): Reply<Bulk> {
    var url := Some("http://" + storage + "/api/show/" + Str(component) + "/");
    var q := QueryXmlApi(reply);
    if !q.Ok? then Reply(Propagate(q), url)
    else if q.value.code == Some("0") then Reply(BulkOf(q.value.tree, component), url)
    else Reply(Exit("ERROR: (get_all) : Response code from API is " + Str(q.value.code)
                    + " (" + Str(q.value.description) + ")"), url)
  }

  /** `get_all`. */
  method GetAll(storage: string, component: Option<string>, reply: Element)
    returns (r: Res<Bulk>, url: Option<string>)
    ensures Reply(r, url) == All(storage, component, reply)
  {
    url := Some("http://" + storage + "/api/show/" + Str(component) + "/");
    var q := QueryXmlApi(reply);
    if !q.Ok? {
      r := Propagate(q);
    } else if q.value.code == Some("0") {
      r := CollectBulk(q.value.tree, component);
    } else {
      r := Exit("ERROR: (get_all) : Response code from API is " + Str(q.value.code)
                + " (" + Str(q.value.description) + ")");
    }
  }

  /** A non-zero return code exits with the code and description; `enclosures` is not a `get_all` component. */
  lemma AllRules(storage: string, component: Option<string>, reply: Element)
    requires ReadStatus(reply).Some?
    ensures var a := All(storage, component, reply);
      var env := ReadStatus(reply).value;
      && (env.code != Some("0") ==>
            a.result == Exit("ERROR: (get_all) : Response code from API is " + Str(env.code)
                             + " (" + Str(env.description) + ")"))
      && (env.code == Some("0") && component == Some("enclosures") ==> a.result == Exit(BulkComponentError))
      && (env.code == Some("0") && component == Some("disks") ==>
            (a.result.Ok? <==> forall k :: 0 <= k < |Items(reply, Disks)| ==> DiskEntry(Items(reply, Disks)[k]).Some?))
  {
    BulkComponents(reply, component);
  }
}
