/**
 * The request handlers of script version 0.2.5 (0.2.5/zbx-hpmsa.py). It has
 * no envelope check at all: the session key is the first status response
 * anywhere in the login reply, a single-item health is read only when the
 * reply holds exactly one, and the discovery JSON is built by hand.
 */
module Msa025 {
  import opened Results
  import opened Xml
  import opened Text
  import opened Assoc
  import opened Api
  import opened Mappers
  import Json

  /** The exit of `get_skey` for an empty key. */
  const ZeroLengthKey: string := "ERROR: (get_skey) Got zero-length value for session key"

  /**
   * `get_skey`: the text of the first `response` PROPERTY of a `status`
   * OBJECT at any depth; no such node (`[0]`) or no text (`len(None)`)
   * raises, an empty text exits.
   */
  function Skey(reply: Element): (r: Res<string>)
    ensures var nodes := PathAllDeep(reply, "status", "response");
      && (r.Crash? <==> nodes == [] || nodes[0].text.None?)
      && (r.Exit? <==> nodes != [] && nodes[0].text == Some(""))
      && (r.Exit? ==> r.message == ZeroLengthKey)
      && (r.Ok? ==> r.value != "" && Some(r.value) == nodes[0].text)
  {
    var nodes := PathAllDeep(reply, "status", "response");
    if nodes == [] || nodes[0].text.None? then Crash
    else if |nodes[0].text.value| == 0 then Exit(ZeroLengthKey)
    else Ok(nodes[0].text.value)
  }

  /** A login reply whose first child is the status OBJECT yields its response text as the key. */
  lemma SkeyOfStatus(tag: string, attrs: map<string, string>, text: Option<string>, rest: seq<Element>,
                     code: Option<string>, key: string)
    requires key != ""
    ensures Skey(Element(tag, attrs, text, [StatusObject(code, Some(key))] + rest)) == Ok(key)
  {
    var status := StatusObject(code, Some(key));
    var root := Element(tag, attrs, text, [status] + rest);
    var ps := status.children;
    var below := DescendantsOf(status.children) + DescendantsOf(rest);
    assert ([status] + rest)[1..] == rest;
    assert Descendants(root) == [status] + below;
    SelectCons(status, below, "OBJECT", "name", "status");
    var objs := Select(Descendants(root), "OBJECT", "name", "status");
    assert objs[0] == status;
    assert objs == [objs[0]] + objs[1..];
    SelectCons(ps[0], [ps[1]], "PROPERTY", "name", "response");
    assert ps == [ps[0]] + [ps[1]];
    assert !Matches(ps[0], "PROPERTY", "name", "response") by {
      assert "return-code"[2] != "response"[2];
    }
    SelectCons(ps[1], [], "PROPERTY", "name", "response");
    assert [ps[1]] == [ps[1]] + [];
    assert Select(status.children, "PROPERTY", "name", "response") == [ps[1]];
    assert PathAllDeep(root, "status", "response")[0] == ps[1];
  }

  // ----- get_value -----

  /** An outcome together with the data URL requested (None: no request was made). */
  datatype Reply<T> = Reply(result: Res<T>, url: Option<string>)

  /** The miss of the controller lookup. */
  function NoSuchController(item: string): string {
    "ERROR: No such controller (" + item + ")"
  }

  /** A disk or vdisk health: the text of the only matching PROPERTY, None when there are none or several. */
  function SingleHealth(tree: Element, obj: string): Option<string> {
    var found := PathAll(tree, "name", obj, "health");
    if |found| == 1 then found[0].text else None
  }

  /** The health of the item in a reply; the reply's return code is not looked at. */
  function ValueOf(component: string, item: string, tree: Element): Res<Option<string>> {
    if component == "vdisks" then Ok(SingleHealth(tree, "virtual-disk"))
    else if component == "disks" then Ok(SingleHealth(tree, "drive"))
    else if component == "controllers" then
      var found := HealthLookup(Items(tree, Controllers), ControllerKey(item), item);
      if found.None? then Crash
      else if found.value.Some? then Ok(found.value.value)
      else Ok(Some(NoSuchController(item)))
    else Ok(Some("Wrong component: " + component))
  }

  /**
   * The reference behaviour of `get_value`: the names are matched exactly
   * (no `lower()`), vdisks and disks put the item in the URL, and any
   * other component, None included, raises before a request.
   */
  function Value(storage: string, component: Option<string>, item: string, reply: Element): Reply<Option<string>> {
    if component.None? then Reply(Crash, None)
    else
      var c := component.value;
      if c == "vdisks" || c == "disks" then Reply(ValueOf(c, item, reply), Some("http://" + storage + "/api/show/" + c + "/" + item))
      else if c == "controllers" then Reply(ValueOf(c, item, reply), Some("http://" + storage + "/api/show/" + c))
      else Reply(Crash, None)
  }

  /** `get_value(storage, sessionkey, component, item)`. */
  method GetValue(storage: string, component: Option<string>, item: string, reply: Element)
    returns (r: Res<Option<string>>, url: Option<string>)
    ensures Reply(r, url) == Value(storage, component, item, reply)
  {
    if component.None? {
      return Crash, None;
    }
    var c := component.value;
    if c == "vdisks" || c == "disks" {
      url := Some("http://" + storage + "/api/show/" + c + "/" + item);
    } else if c == "controllers" {
      url := Some("http://" + storage + "/api/show/" + c);
    } else {
      return Crash, None;
    }
    if c == "controllers" {
      var dict := HealthById(Items(reply, Controllers), ControllerKey(item));
      if dict.None? {
        r := Crash;
      } else if Some(item) in dict.value {
        r := Ok(dict.value[Some(item)]);
      } else {
        r := Ok(Some(NoSuchController(item)));
      }
    } else {
      r := ValueOf(c, item, reply);
    }
  }

  /**
   * Exactly one health: when, among the OBJECTs of that name, only `o`
   * holds a health PROPERTY, and exactly one, its text is the value.
   */
  lemma SingleHealthRule(tree: Element, obj: string, pre: seq<Element>, o: Element, post: seq<Element>, p: Element)
    requires Select(tree.children, "OBJECT", "name", obj) == pre + [o] + post
    requires forall i :: 0 <= i < |pre| ==> Select(pre[i].children, "PROPERTY", "name", "health") == []
    requires forall i :: 0 <= i < |post| ==> Select(post[i].children, "PROPERTY", "name", "health") == []
    requires Select(o.children, "PROPERTY", "name", "health") == [p]
    ensures SingleHealth(tree, obj) == p.text
  {
    SelectFromAppend(pre + [o], post, "PROPERTY", "name", "health");
    SelectFromAppend(pre, [o], "PROPERTY", "name", "health");
    SelectFromEmpty(pre, "PROPERTY", "name", "health");
    SelectFromEmpty(post, "PROPERTY", "name", "health");
    assert [o][1..] == [];
    assert SelectFrom([o], "PROPERTY", "name", "health") == [p] + SelectFrom([], "PROPERTY", "name", "health");
    assert PathAll(tree, "name", obj, "health") == [] + [p] + [];
  }

  /** None, or several, matching health PROPERTYs under the requested objects give None. */
  lemma NotSingleHealth(tree: Element, item: string)
    ensures |PathAll(tree, "name", "virtual-disk", "health")| != 1 ==> ValueOf("vdisks", item, tree) == Ok(None)
    ensures |PathAll(tree, "name", "drive", "health")| != 1 ==> ValueOf("disks", item, tree) == Ok(None)
  {
  }

  /** Controllers: the health of the last controller carrying the item as its id PROPERTY. */
  lemma ControllerFound(item: string, tree: Element, j: nat)
    requires var objs := Items(tree, Controllers);
      && (forall k :: 0 <= k < |objs| ==> Prop(objs[k], IdName(ControllerKey(item))).Some? && Prop(objs[k], "health").Some?)
      && j < |objs| && Prop(objs[j], IdName(ControllerKey(item))) == Some(Some(item))
      && (forall k :: j < k < |objs| ==> Prop(objs[k], IdName(ControllerKey(item))) != Some(Some(item)))
    ensures ValueOf("controllers", item, tree) == Ok(Prop(Items(tree, Controllers)[j], "health").value)
  {
    LookupFound(Items(tree, Controllers), ControllerKey(item), item, j);
  }

  /** Controllers: an item no controller carries gives the short error, without the dict. */
  lemma ControllerMissing(item: string, tree: Element)
    requires var objs := Items(tree, Controllers);
      && (forall k :: 0 <= k < |objs| ==> Prop(objs[k], IdName(ControllerKey(item))).Some? && Prop(objs[k], "health").Some?)
      && (forall k :: 0 <= k < |objs| ==> Prop(objs[k], IdName(ControllerKey(item))) != Some(Some(item)))
    ensures ValueOf("controllers", item, tree) == Ok(Some("ERROR: No such controller (" + item + ")"))
  {
    LookupMissing(Items(tree, Controllers), ControllerKey(item), item);
  }

  // ----- make_discovery -----

  /** The exit of `make_discovery` for an empty reply body. */
  const ZeroLengthXml: string := "ERROR: (make_discovery) Got zero-length XML result"

  /** The kinds 0.2.5 discovers, by exact name. */
  function DiscoveryKind(component: string): Option<Kind> {
    if component == "vdisks" then Some(Vdisks)
    else if component == "disks" then Some(Disks)
    else if component == "controllers" then Some(Controllers)
    else None
  }

  /** The records of the component; an unknown one has none, a missing PROPERTY raises. */
  function Records(component: string, tree: Element): Option<seq<Json.Record>> {
    var kind := DiscoveryKind(component);
    if kind.None? then Some([]) else Traverse(RecordFn(kind.value), Items(tree, kind.value))
  }

  /**
   * The reference behaviour of `make_discovery`: an empty body exits, a
   * None component raises at `len(None)`, and the text is every record
   * followed by a comma, one trailing comma stripped, wrapped in
   * `{"data":[` and `]}`.
   */
  function Discovery(component: Option<string>, body: Body): Res<string> {
    if body.EmptyBody? then Exit(ZeroLengthXml)
    else if component.None? then Crash
    else
      var rs := Records(component.value, body.root);
      if rs.None? then Crash
      else Ok("{\"data\":[" + StripEnd(Suffixed(Json.RecordsText(rs.value), ","), ",") + "]}")
  }

  /** The loop `json_body += rec + ','` over the items; None when an item lacks a PROPERTY. */
  method JsonBody(objs: seq<Element>, f: Element -> Option<Json.Record>) returns (r: Option<string>)
    ensures r.Some? <==> Traverse(f, objs).Some?
    ensures r.Some? ==> r.value == Suffixed(Json.RecordsText(Traverse(f, objs).value), ",")
  {
    var jsonBody := "";
    ghost var recs: seq<Json.Record> := [];
    var i := 0;
    while i < |objs|
      invariant 0 <= i <= |objs|
      invariant Traverse(f, objs[..i]) == Some(recs)
      invariant jsonBody == Suffixed(Json.RecordsText(recs), ",")
    {
      var rec := f(objs[i]);
      TraverseStep(f, objs, i);
      if rec.None? {
        TraverseFails(f, objs, i);
        return None;
      }
      var text := Json.RecordText(rec.value);
      Json.RecordsTextAppend(recs, [rec.value]);
      assert Json.RecordsText([rec.value]) == [text];
      SuffixedAppend(Json.RecordsText(recs), [text], ",");
      assert Suffixed([text], ",") == text + "," + Suffixed([], ",");
      jsonBody := jsonBody + (text + ",");
      recs := recs + [rec.value];
      i := i + 1;
    }
    assert objs[..i] == objs;
    r := Some(jsonBody);
  }

  /** `make_discovery(storage, sessionkey, component)`; the URL holds the component as `format` prints it. */
  method MakeDiscovery(storage: string, component: Option<string>, body: Body) returns (r: Res<string>, url: string)
    ensures url == "http://" + storage + "/api/show/" + Str(component)
    ensures r == Discovery(component, body)
  {
    url := "http://" + storage + "/api/show/" + Str(component);
    if body.EmptyBody? {
      return Exit(ZeroLengthXml), url;
    }
    if component.None? {
      return Crash, url;
    }
    var kind := DiscoveryKind(component.value);
    var jsonBody := "";
    if kind.Some? {
      var built := JsonBody(Items(body.root, kind.value), RecordFn(kind.value));
      if built.None? {
        return Crash, url;
      }
      jsonBody := built.value;
    }
    r := Ok("{\"data\":[" + StripEnd(jsonBody, ",") + "]}");
  }

  /**
   * The hand-built text is the JSON `{"data": L}` of the records, in
   * document order; in particular no records (an unknown component or no
   * matching objects) give `{"data":[]}`.
   */
  lemma DiscoveryIsJson(component: string, root: Element)
    requires Records(component, root).Some?
    ensures Discovery(Some(component), Parsed(root)) == Ok(Json.DataText(Records(component, root).value))
    ensures Records(component, root).value == [] ==> Discovery(Some(component), Parsed(root)) == Ok("{\"data\":[]}")
  {
    var texts := Json.RecordsText(Records(component, root).value);
    if texts == [] {
      assert Suffixed(texts, ",") == "" && Join(texts, ",") == "";
      assert StripEnd("", ",") == "";
      Json.EmptyData();
    } else {
      SuffixedIsJoin(texts, ",");
      StripEndAppended(Join(texts, ","), ",");
    }
  }

  /** An empty body exits before the component is looked at. */
  lemma EmptyBodyExits(component: Option<string>)
    ensures Discovery(component, EmptyBody) == Exit("ERROR: (make_discovery) Got zero-length XML result")
  {
  }
}
