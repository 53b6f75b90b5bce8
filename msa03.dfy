/**
 * The request handlers of script version 0.3 (0.3/zbx-hpmsa.py). Unlike
 * the current script it has no session-key cache, no handler around the
 * envelope read (a missing status PROPERTY crashes), a bounded retry on a
 * non-zero return code, and a `get_all` that looks only at the HTTP status.
 * The replies to the successive login and data requests are given as
 * sequences indexed by the request number.
 */
module Msa03 {
  import opened Results
  import opened Xml
  import opened Text
  import opened Assoc
  import opened Api
  import opened Mappers
  import opened SessionCache
  import Json

  /** `get_skey`: '2', the response text for code '1', None otherwise; a missing PROPERTY crashes. */
  function Skey(reply: Element): (r: Res<Option<string>>)
    ensures !r.Exit?
    ensures r.Crash? <==> FindDeep(reply, "PROPERTY", "return-code").None? || FindDeep(reply, "PROPERTY", "response").None?
  {
    var d := LoginDecision(reply);
    if d.Crash? then Crash else Ok(SessionKey(d.value))
  }

  /** The three answers of `get_skey`, read from the return code found by descendant search. */
  lemma SkeyCodes(reply: Element)
    requires FindDeep(reply, "PROPERTY", "return-code").Some? && FindDeep(reply, "PROPERTY", "response").Some?
    ensures var code := FindDeep(reply, "PROPERTY", "return-code").value.text;
      && (code == Some("2") ==> Skey(reply) == Ok(Some("2")))
      && (code == Some("1") ==> Skey(reply) == Ok(FindDeep(reply, "PROPERTY", "response").value.text))
      && (code != Some("1") && code != Some("2") ==> Skey(reply) == Ok(None))
  {
  }

  /** `query_xmlapi`: the envelope; reading `.text` of a missing status PROPERTY raises. */
  function Query(root: Element): (r: Res<Envelope>)
    ensures !r.Exit?
    ensures r.Ok? <==> FindPath(root, "status", "return-code").Some? && FindPath(root, "status", "response").Some?
    ensures r.Ok? ==> Some(r.value) == ReadStatus(root)
  {
    var status := ReadStatus(root);
    if status.None? then Crash else Ok(status.value)
  }

  // ----- the retry loop of get_value -----

  /** At most three re-logins. */
  const MaxAttempts: nat := 3

  /**
   * The retry loop from its state after `k` re-logins, holding envelope
   * `env`: it stops at a zero code or after the third re-login; otherwise
   * it logs in with reply `logins[k]` and re-queries with reply
   * `replies[k + 1]`. `int()` of a code that is not a number raises.
   */
  function Retry(logins: seq<Element>, replies: seq<Element>, k: nat, env: Envelope): (r: Res<(nat, Envelope)>)
    requires k <= MaxAttempts && |logins| == MaxAttempts && |replies| == MaxAttempts + 1
    decreases MaxAttempts - k
    ensures !r.Exit?
    ensures r.Ok? ==> k <= r.value.0 <= MaxAttempts && IntIsZero(r.value.1.code).Some?
    ensures r.Ok? && r.value.0 < MaxAttempts ==> IntIsZero(r.value.1.code) == Some(true)
  {
    var zero := IntIsZero(env.code);
    if zero.None? then Crash
    else if zero.value || k == MaxAttempts then Ok((k, env))
    else if Skey(logins[k]).Crash? then Crash
    else
      var q := Query(replies[k + 1]);
      if !q.Ok? then Crash else Retry(logins, replies, k + 1, q.value)
  }

  /** `while int(resp_return_code) != 0 and attempts < 3`: re-login and re-query. */
  method RetryLoop(logins: seq<Element>, replies: seq<Element>, first: Envelope) returns (r: Res<(nat, Envelope)>)
    requires |logins| == MaxAttempts && |replies| == MaxAttempts + 1
    ensures r == Retry(logins, replies, 0, first)
  {
    var attempts: nat := 0;
    var env := first;
    var zero := IntIsZero(env.code);
    if zero.None? {
      return Crash;
    }
    while !zero.value && attempts < MaxAttempts
      invariant attempts <= MaxAttempts
      invariant zero == IntIsZero(env.code) && zero.Some?
      invariant Retry(logins, replies, attempts, env) == Retry(logins, replies, 0, first)
      decreases MaxAttempts - attempts
    {
      var key := Skey(logins[attempts]);
      if key.Crash? {
        return Crash;
      }
      var q := Query(replies[attempts + 1]);
      if !q.Ok? {
        return Crash;
      }
      env := q.value;
      attempts := attempts + 1;
      zero := IntIsZero(env.code);
      if zero.None? {
        return Crash;
      }
    }
    r := Ok((attempts, env));
  }

  /** Reply `i` answers the i-th data request and carries a non-zero number as its code. */
  predicate Refused(replies: seq<Element>, i: nat)
    requires i < |replies|
  {
    Query(replies[i]).Ok? && IntIsZero(Query(replies[i]).value.code) == Some(false)
  }

  /** A refused reply with an answered login moves the loop on to the next reply. */
  lemma RetryStep(logins: seq<Element>, replies: seq<Element>, s: nat)
    requires s < MaxAttempts && |logins| == MaxAttempts && |replies| == MaxAttempts + 1
    requires Refused(replies, s) && !Skey(logins[s]).Crash? && Query(replies[s + 1]).Ok?
    ensures Retry(logins, replies, s, Query(replies[s]).value) == Retry(logins, replies, s + 1, Query(replies[s + 1]).value)
  {
  }

  /** The loop ends holding reply `k` when its code is zero, or after the third re-login whatever its code. */
  lemma RetryStops(logins: seq<Element>, replies: seq<Element>, k: nat)
    requires k <= MaxAttempts && |logins| == MaxAttempts && |replies| == MaxAttempts + 1
    requires Query(replies[k]).Ok? && IntIsZero(Query(replies[k]).value.code).Some?
    requires k < MaxAttempts ==> IntIsZero(Query(replies[k]).value.code) == Some(true)
    ensures Retry(logins, replies, k, Query(replies[k]).value) == Ok((k, Query(replies[k]).value))
  {
  }

  /**
   * The loop stops at the first reply with a zero code, or takes the
   * fourth reply when the first three are all refused: started after `s`
   * re-logins, with replies `s`..`k-1` refused and the logins before them
   * answered, it ends holding reply `k`.
   */
  lemma {:induction false} RetryRun(logins: seq<Element>, replies: seq<Element>, s: nat, k: nat)
    requires s <= k <= MaxAttempts && |logins| == MaxAttempts && |replies| == MaxAttempts + 1
    requires forall i :: s <= i < k ==> Refused(replies, i) && !Skey(logins[i]).Crash?
    requires Query(replies[k]).Ok? && IntIsZero(Query(replies[k]).value.code).Some?
    requires k < MaxAttempts ==> IntIsZero(Query(replies[k]).value.code) == Some(true)
    requires Query(replies[s]).Ok?
    ensures Retry(logins, replies, s, Query(replies[s]).value) == Ok((k, Query(replies[k]).value))
    decreases k - s
  {
    if s < k {
      assert Refused(replies, s) && !Skey(logins[s]).Crash?;
      if s + 1 < k {
        assert Refused(replies, s + 1);
      }
      RetryStep(logins, replies, s);
      RetryRun(logins, replies, s + 1, k);
    } else {
      RetryStops(logins, replies, k);
    }
  }

  // ----- get_value -----

  /** The reply to `get_value` when the health text cannot be used. */
  const HandleError: string := "ERROR: (get_value) response handle error."

  /** `str(health_dict)`: `{'k': 'v', ...}` in the order the keys were first assigned. */
  function DictRepr(ps: seq<(Option<string>, Option<string>)>): string {
    var m := ToMap(ps);
    "{" + Join(EntriesRepr(FirstKeys(ps), m), ", ") + "}"
  }

  function EntriesRepr(ks: seq<Option<string>>, m: map<Option<string>, Option<string>>): seq<string>
    requires forall i :: 0 <= i < |ks| ==> ks[i] in m
  {
    if ks == [] then [] else [Repr(ks[0]) + ": " + Repr(m[ks[0]])] + EntriesRepr(ks[1..], m)
  }

  /** The error naming the controllers that were found. */
  function NoSuchController(item: string, ps: seq<(Option<string>, Option<string>)>): string {
    "ERROR: No such controller (" + item + "). Found only these: " + DictRepr(ps)
  }

  /** The controllers branch: the health dict keyed by the chosen id PROPERTY, looked up by the item. */
  function ControllerValue(item: string, objs: seq<Element>): Res<Option<string>> {
    var found := HealthLookup(objs, ControllerKey(item), item);
    if found.None? then Crash
    else if found.value.Some? then Ok(found.value.value)
    else Ok(Some(NoSuchController(item, Traverse(HealthEntryFn(ControllerKey(item)), objs).value)))
  }

  /** The health of the item once a reply with a zero code is in hand; `len(None)` raises. */
  function ValueOf(component: string, item: string, tree: Element): Res<Option<string>> {
    var lower := Lower(component);
    if lower == "vdisks" then
      var node := FindPath(tree, "virtual-disk", "health");
      if node.None? || node.value.text.None? then Crash
      else if |node.value.text.value| != 0 then Ok(node.value.text) else Ok(Some(HandleError))
    else if lower == "disks" then
      var node := FindPath(tree, "drive", "health");
      if node.None? || node.value.text.None? then Crash
      else if |node.value.text.value| != 1 then Ok(node.value.text) else Ok(Some(HandleError))
    else if lower == "controllers" then ControllerValue(item, Items(tree, Controllers))
    else Ok(Some("Wrong component: " + component))
  }

  /** The URL `get_value` requests: the item is appended for vdisks and disks only. */
  function ValueUrl(storage: string, component: string, item: string): Option<string> {
    var lower := Lower(component);
    if lower == "vdisks" || lower == "disks" then Some("http://" + storage + "/api/show/" + component + "/" + item)
    else if lower == "controllers" then Some("http://" + storage + "/api/show/" + component)
    else None
  }

  /** An outcome together with the data URL requested (None: no request was made). */
  datatype Reply<T> = Reply(result: Res<T>, url: Option<string>)

  /**
   * The reference behaviour of `get_value`: the first data request gets
   * `replies[0]`; while the code is not zero the retry loop runs; a code
   * still not zero exits with the description.
   */
  function Value(storage: string, component: Option<string>, item: string,
                 logins: seq<Element>, replies: seq<Element>): Reply<Option<string>>
    requires |logins| == MaxAttempts && |replies| == MaxAttempts + 1
  {
    if component.None? then Reply(Crash, None)
    else
      var url := ValueUrl(storage, component.value, item);
      if url.None? then Reply(Exit("ERROR: Wrong component \"" + component.value + "\""), None)
      else
        var q := Query(replies[0]);
        if !q.Ok? then Reply(Crash, url)
        else
          var run := Retry(logins, replies, 0, q.value);
          if !run.Ok? then Reply(Crash, url)
          else if IntIsZero(run.value.1.code) != Some(true) then Reply(Exit("ERROR: " + Str(run.value.1.description)), url)
          else Reply(ValueOf(component.value, item, run.value.1.tree), url)
  }

  /** `get_value(storage, sessionkey, component, item)`. */
  method GetValue(storage: string, component: Option<string>, item: string,
                  logins: seq<Element>, replies: seq<Element>)
    returns (r: Res<Option<string>>, url: Option<string>)
    requires |logins| == MaxAttempts && |replies| == MaxAttempts + 1
    ensures Reply(r, url) == Value(storage, component, item, logins, replies)
  {
    if component.None? {
      return Crash, None;
    }
    url := ValueUrl(storage, component.value, item);
    if url.None? {
      r := Exit("ERROR: Wrong component \"" + component.value + "\"");
      return;
    }
    var q := Query(replies[0]);
    if !q.Ok? {
      r := Crash;
      return;
    }
    var run := RetryLoop(logins, replies, q.value);
    if !run.Ok? {
      r := Crash;
    } else if IntIsZero(run.value.1.code) != Some(true) {
      r := Exit("ERROR: " + Str(run.value.1.description));
    } else if Lower(component.value) == "controllers" {
      var tree := run.value.1.tree;
      var dict := HealthById(Items(tree, Controllers), ControllerKey(item));
      if dict.None? {
        r := Crash;
      } else if Some(item) in dict.value {
        r := Ok(dict.value[Some(item)]);
      } else {
        var ps := Traverse(HealthEntryFn(ControllerKey(item)), Items(tree, Controllers));
        r := Ok(Some(NoSuchController(item, ps.value)));
      }
    } else {
      r := ValueOf(component.value, item, run.value.1.tree);
    }
  }

  /** Vdisks and disks put the item in the URL, controllers do not, anything else is refused before a request. */
  lemma ValueUrls(storage: string, component: string, item: string, logins: seq<Element>, replies: seq<Element>)
    requires |logins| == MaxAttempts && |replies| == MaxAttempts + 1
    ensures var v := Value(storage, Some(component), item, logins, replies);
      && (Lower(component) == "vdisks" || Lower(component) == "disks" ==>
            v.url == Some("http://" + storage + "/api/show/" + component + "/" + item))
      && (Lower(component) == "controllers" ==> v.url == Some("http://" + storage + "/api/show/" + component))
      && (v.url.None? <==> Lower(component) !in {"vdisks", "disks", "controllers"})
      && (v.url.None? ==> v.result == Exit("ERROR: Wrong component \"" + component + "\""))
  {
  }

  /**
   * The first zero code ends the loop: when the first `k` replies are
   * refused (k at most 3) and reply `k` has code zero, the value is read
   * from reply `k`.
   */
  lemma ValueAfterRetries(storage: string, component: string, item: string,
                          logins: seq<Element>, replies: seq<Element>, k: nat)
    requires |logins| == MaxAttempts && |replies| == MaxAttempts + 1 && k <= MaxAttempts
    requires ValueUrl(storage, component, item).Some?
    requires forall i :: 0 <= i < k ==> Refused(replies, i) && !Skey(logins[i]).Crash?
    requires Query(replies[k]).Ok? && IntIsZero(Query(replies[k]).value.code) == Some(true)
    ensures Value(storage, Some(component), item, logins, replies).result
         == ValueOf(component, item, replies[k])
  {
    if k == 0 {
      RetryRun(logins, replies, 0, 0);
    } else {
      assert Refused(replies, 0);
      RetryRun(logins, replies, 0, k);
    }
  }

  /** Four refused replies: after the third re-login the function exits with the last description. */
  lemma ValueGivesUp(storage: string, component: string, item: string, logins: seq<Element>, replies: seq<Element>)
    requires |logins| == MaxAttempts && |replies| == MaxAttempts + 1
    requires ValueUrl(storage, component, item).Some?
    requires forall i :: 0 <= i < MaxAttempts ==> Refused(replies, i) && !Skey(logins[i]).Crash?
    requires Refused(replies, MaxAttempts)
    ensures Value(storage, Some(component), item, logins, replies).result
         == Exit("ERROR: " + Str(Query(replies[MaxAttempts]).value.description))
  {
    assert Refused(replies, 0);
    RetryRun(logins, replies, 0, MaxAttempts);
  }

  /**
   * The health texts are checked by length: a vdisk health is returned
   * unless it is empty, a disk health unless it is exactly one character
   * long; otherwise the handle-error string comes back.
   */
  lemma HealthLengthRules(item: string, tree: Element)
    ensures var node := FindPath(tree, "virtual-disk", "health");
      node.Some? && node.value.text.Some? ==>
        ValueOf("vdisks", item, tree) == Ok(Some(if |node.value.text.value| == 0 then HandleError else node.value.text.value))
    ensures var node := FindPath(tree, "drive", "health");
      node.Some? && node.value.text.Some? ==>
        ValueOf("disks", item, tree) == Ok(Some(if |node.value.text.value| == 1 then HandleError else node.value.text.value))
  {
    assert Lower("vdisks") == "vdisks";
    assert Lower("disks") == "disks";
  }

  /** A one-character item names a controller-id, anything longer a serial-number. */
  lemma ControllerKeyChoice(item: string)
    ensures IdName(ControllerKey(item)) == if |item| == 1 then "controller-id" else "serial-number"
  {
  }

  /**
   * A controller carrying the item as its id PROPERTY: the value is the
   * health of the last controller that carries it.
   */
  lemma ControllerFound(item: string, objs: seq<Element>, j: nat)
    requires forall k :: 0 <= k < |objs| ==> Prop(objs[k], IdName(ControllerKey(item))).Some? && Prop(objs[k], "health").Some?
    requires j < |objs| && Prop(objs[j], IdName(ControllerKey(item))) == Some(Some(item))
    requires forall k :: j < k < |objs| ==> Prop(objs[k], IdName(ControllerKey(item))) != Some(Some(item))
    ensures ControllerValue(item, objs) == Ok(Prop(objs[j], "health").value)
  {
    LookupFound(objs, ControllerKey(item), item, j);
  }

  /** No controller carries the item: the error lists the dict of what was found. */
  lemma ControllerMissing(item: string, objs: seq<Element>)
    requires forall k :: 0 <= k < |objs| ==> Prop(objs[k], IdName(ControllerKey(item))).Some? && Prop(objs[k], "health").Some?
    requires forall k :: 0 <= k < |objs| ==> Prop(objs[k], IdName(ControllerKey(item))) != Some(Some(item))
    ensures Traverse(HealthEntryFn(ControllerKey(item)), objs).Some?
    ensures ControllerValue(item, objs) == Ok(Some(NoSuchController(item, Traverse(HealthEntryFn(ControllerKey(item)), objs).value)))
  {
    LookupMissing(objs, ControllerKey(item), item);
  }

  // ----- get_all -----

  /** The HTTP status and the parsed body of a reply; `get_all` looks at the status only. */
  datatype HttpReply = HttpReply(status: int, body: Element)

  /** The reference behaviour of `get_all`: a status other than 200 gives None, the return code is ignored. */
  function All(component: string, reply: HttpReply): Res<Option<Bulk>> {
    if reply.status != 200 then Ok(None)
    else
      var b := BulkOf(reply.body, Some(component));
      if b.Ok? then Ok(Some(b.value)) else Propagate(b)
  }

  /** `get_all(storage, sessionkey, component)`. */
  method GetAll(storage: string, component: string, reply: HttpReply) returns (r: Res<Option<Bulk>>, url: string)
    ensures r == All(component, reply)
    ensures url == "http://" + storage + "/api/show/" + component + "/"
  {
    url := "http://" + storage + "/api/show/" + component + "/";
    if reply.status != 200 {
      return Ok(None), url;
    }
    var b := CollectBulk(reply.body, Some(component));
    r := if b.Ok? then Ok(Some(b.value)) else Propagate(b);
  }

  /** Only the HTTP status gates the dict: a status 200 reply with an error code is still read. */
  lemma AllGatedOnStatus(component: string, reply: HttpReply)
    ensures reply.status != 200 ==> All(component, reply) == Ok(None)
    ensures reply.status == 200 && component == "enclosures" ==> All(component, reply) == Exit(BulkComponentError)
    ensures reply.status == 200 && BulkOf(reply.body, Some(component)).Ok? ==>
      All(component, reply) == Ok(Some(BulkOf(reply.body, Some(component)).value))
  {
    BulkComponents(reply.body, Some(component));
  }

  // ----- make_discovery -----

  /** The components `make_discovery('all')` collects, in order. */
  const AllComponents: seq<string> := ["disks", "vdisks", "controllers"]

  /** The key of a component's `get_all` output in the `'all'` result. */
  function GroupKey(component: string): Option<string> {
    if component == "disks" then Some("{#ALL_DISKS}")
    else if component == "vdisks" then Some("{#ALL_VDISKS}")
    else if component == "controllers" then Some("{#ALL_CONTROLLERS}")
    else None
  }

  /** The `'all'` records for `comps`, in order; the first failing `get_all` or an unknown name stops it. */
  function Groups(comps: seq<string>, replies: string -> HttpReply): Res<seq<(string, Option<Bulk>)>> {
    if comps == [] then Ok([])
    else
      var init := Groups(comps[..|comps| - 1], replies);
      var comp := comps[|comps| - 1];
      if !init.Ok? then init
      else
        var data := All(comp, replies(comp));
        if !data.Ok? then Propagate(data)
        else if GroupKey(comp).None? then Exit("ERROR: Wrong component - '" + comp + "'")
        else Ok(init.value + [(GroupKey(comp).value, data.value)])
  }

  /** One more component appends its record once the earlier ones succeeded. */
  lemma GroupsSnoc(comps: seq<string>, comp: string, replies: string -> HttpReply)
    requires Groups(comps, replies).Ok? && All(comp, replies(comp)).Ok? && GroupKey(comp).Some?
    ensures Groups(comps + [comp], replies) == Ok(Groups(comps, replies).value + [(GroupKey(comp).value, All(comp, replies(comp)).value)])
  {
    assert (comps + [comp])[..|comps|] == comps;
  }

  /** What `make_discovery` returns: the `'all'` dict (not JSON) or the list of `{"data": L}`. */
  datatype Discovered = Grouped(groups: seq<(string, Option<Bulk>)>) | Listed(records: seq<Json.Record>)

  /** The kinds 0.3 discovers; enclosures is not one of them. */
  function DiscoveryKind(lower: string): Option<Kind> {
    if lower == "vdisks" then Some(Vdisks)
    else if lower == "disks" then Some(Disks)
    else if lower == "controllers" then Some(Controllers)
    else None
  }

  /**
   * The reference behaviour of `make_discovery`: `'all'` (in any case)
   * collects the three `get_all` outputs, anything else queries the
   * component and lists its records.
   */
  function Discovery(component: Option<string>, reply: Element, replies: string -> HttpReply): Res<Discovered> {
    if component.None? then Crash else DiscoveryOf(Lower(component.value), reply, replies)
  }

  /** `make_discovery` once the component has been lower-cased (a None component raises at `lower()`). */
  function DiscoveryOf(lower: string, reply: Element, replies: string -> HttpReply): Res<Discovered> {
    if lower == "all" then
      var g := Groups(AllComponents, replies);
      if g.Ok? then Ok(Grouped(g.value)) else Propagate(g)
    else
      var q := Query(reply);
      if !q.Ok? then Crash
      else
        var zero := IntIsZero(q.value.code);
        if zero.None? then Crash
        else if !zero.value then Exit("ERROR: " + Str(q.value.description))
        else
          var kind := DiscoveryKind(lower);
          if kind.None? then Ok(Listed([]))
          else
            var rs := Traverse(RecordFn(kind.value), Items(q.value.tree, kind.value));
            if rs.None? then Crash else Ok(Listed(rs.value))
  }

  /** The loop of `make_discovery('all')` over the three components. */
  method CollectGroups(storage: string, replies: string -> HttpReply) returns (r: Res<seq<(string, Option<Bulk>)>>)
    ensures r == Groups(AllComponents, replies)
  {
    var groups: seq<(string, Option<Bulk>)> := [];
    for i := 0 to |AllComponents|
      invariant Groups(AllComponents[..i], replies) == Ok(groups)
    {
      var comp := AllComponents[i];
      assert AllComponents[..i + 1][..i] == AllComponents[..i];
      var data, _ := GetAll(storage, comp, replies(comp));
      if !data.Ok? {
        return Propagate(data);
      }
      groups := groups + [(GroupKey(comp).value, data.value)];
    }
    assert AllComponents[..|AllComponents|] == AllComponents;
    return Ok(groups);
  }

  /**
   * `make_discovery(storage, sessionkey, component)`; `url` is the one
   * `show` request it makes itself, None for `'all'` (whose requests are
   * those of `get_all`) and for a None component (which raises first).
   */
  method MakeDiscovery(storage: string, component: Option<string>, reply: Element, replies: string -> HttpReply)
    returns (r: Res<Discovered>, url: Option<string>)
    ensures r == Discovery(component, reply, replies)
    ensures url == if component.None? || Lower(component.value) == "all" then None
                   else Some("http://" + storage + "/api/show/" + component.value)
  {
    url := None;
    if component.None? {
      return Crash, url;
    }
    if Lower(component.value) == "all" {
      var g := CollectGroups(storage, replies);
      return (if g.Ok? then Ok(Grouped(g.value)) else Propagate(g)), url;
    }
    url := Some("http://" + storage + "/api/show/" + component.value);
    var q := Query(reply);
    if !q.Ok? {
      return Crash, url;
    }
    var zero := IntIsZero(q.value.code);
    if zero.None? {
      r := Crash;
    } else if !zero.value {
      r := Exit("ERROR: " + Str(q.value.description));
    } else {
      var kind := DiscoveryKind(Lower(component.value));
      if kind.None? {
        r := Ok(Listed([]));
      } else {
        var rs := Discover(q.value.tree, kind.value);
        r := if rs.None? then Crash else Ok(Listed(rs.value));
      }
    }
  }

  /** The component is matched case-insensitively, `'all'` included. */
  lemma DiscoveryCaseFree(c: string, reply: Element, replies: string -> HttpReply)
    ensures Discovery(Some(c), reply, replies) == Discovery(Some(Lower(c)), reply, replies)
  {
    LowerIdem(c);
  }

  /**
   * `'all'` gives exactly three records, `{#ALL_DISKS}`, `{#ALL_VDISKS}`
   * and `{#ALL_CONTROLLERS}` in that order, each holding that component's
   * `get_all` output.
   */
  lemma AllDiscovery(replies: string -> HttpReply)
    requires forall c :: c in AllComponents ==> All(c, replies(c)).Ok?
    ensures Groups(AllComponents, replies) == Ok([("{#ALL_DISKS}", All("disks", replies("disks")).value),
                                                 ("{#ALL_VDISKS}", All("vdisks", replies("vdisks")).value),
                                                 ("{#ALL_CONTROLLERS}", All("controllers", replies("controllers")).value)])
  {
    var cs := AllComponents;
    assert "disks" in cs && "vdisks" in cs && "controllers" in cs;
    assert GroupKey("disks") == Some("{#ALL_DISKS}");
    assert GroupKey("vdisks") == Some("{#ALL_VDISKS}");
    assert GroupKey("controllers") == Some("{#ALL_CONTROLLERS}");
    GroupsSnoc([], "disks", replies);
    assert [] + ["disks"] == ["disks"];
    GroupsSnoc(["disks"], "vdisks", replies);
    assert ["disks"] + ["vdisks"] == ["disks", "vdisks"];
    GroupsSnoc(["disks", "vdisks"], "controllers", replies);
    assert ["disks", "vdisks"] + ["controllers"] == cs;
    var d, v, c := All("disks", replies("disks")).value, All("vdisks", replies("vdisks")).value,
                   All("controllers", replies("controllers")).value;
    assert [] + [("{#ALL_DISKS}", d)] + [("{#ALL_VDISKS}", v)] + [("{#ALL_CONTROLLERS}", c)]
        == [("{#ALL_DISKS}", d), ("{#ALL_VDISKS}", v), ("{#ALL_CONTROLLERS}", c)];
  }
}
