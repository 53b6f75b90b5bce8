# zbx-hpmsa response handling, in Dafny

zbx-hpmsa is a Zabbix helper for HP MSA storage arrays. It logs in to the
array's XML API, sends `show` commands and turns the XML replies into
monitoring output:

- discovery JSON (`{"data": [...]}`) for Zabbix low-level discovery;
- the health of a single disk, vdisk, controller or enclosure;
- a bulk dict of every item of a component.

This project models the response-handling core of the five versions of the
script kept in the repository:

| module | script |
|---|---|
| `SessionCache`, `Api`, `Msa`, `Mappers` | `zbx-hpmsa.py` (the current script) |
| `Msa03` | `0.3/zbx-hpmsa.py` |
| `Msa025` | `0.2.5/zbx-hpmsa.py` |
| `Legacy024`, with `Copy = Archived` | `old_versions/0.2.4/zbx-hpmsa.py` |
| `Legacy024`, with `Copy = Released` | `0.2.4/zbx-hpmsa.py` |

Shared building blocks:

- **`Xml`.** A parsed reply is an `Element`: a tag, an attribute map,
  optional text and ordered children. The module defines the ElementPath
  queries the scripts use:
  - direct `OBJECT` children with a given `@name`;
  - the first `PROPERTY` with a given `@name`;
  - `.//` descendant search;
  - `iter('PROPERTY')` in document pre-order.
- **`Results`.** The outcome of an operation is `Res`:
  - `Ok(value)` for a value it returns;
  - `Exit(message)` for a `SystemExit`;
  - `Crash` for an exception nobody catches, such as `.text` on a missing
    node, `[0]` on an empty list, a `KeyError`, a failed `int()` or an
    unbound local.

  Python's `None` is `Option.None`. `"{}".format(None)` prints `None`
  (`Text.Str`).
- **`SessionCache`.** The session-key cache of the current script is the
  class `KeyCache`. It holds a map from cache-file name to
  (key, modification time). The clock is a `now` parameter in seconds.
- **`Mappers`.** The loops that build lists and dicts are the same text in
  the current script and in 0.3, so they are modelled once here:
  - the discovery records per kind;
  - the `get_all` bulk maps;
  - the id → health dict.

Each handler that loops in the source is a `method` with a `while` or `for`
loop. Its `ensures` ties the result to a reference function (for example
`Msa.GetHealth` to `Msa.Health`). The lemmas state what the reference
function promises.

Every handler gets the reply to its request as an `Element` parameter and
returns the URL it requested (the 0.3 `make_discovery` returns None for
'all', whose requests are those of its three `get_all` calls). In 0.3, `get_value` may log in again and
re-query; those replies arrive as sequences indexed by attempt. The 0.3
`get_all` replies arrive as a function from component name to HTTP reply.

Quirks of the source are modelled as written:

- `get_all` leaves out controllers without a `ports` OBJECT.
- The 0.3 disk health check is `len != 1`.
- The vdisk discovery of both 0.2.4 copies prints `{"data":[}]}` when there
  are no vdisks.
- The 0.2.4 `get_value` scan answers a disks request from a `virtual-disk`
  OBJECT, and the other way round.

## Model

| member | source | states |
|---|---|---|
| SessionCache.CacheFileInjective | zbx-hpmsa.py:45 | the cache file name depends on the storage alone, and two storages never share one |
| SessionCache.LoginUrlShape | zbx-hpmsa.py:58-61 | the login URL is `http://<storage>/api/login/` followed by the hash of `login_password` |
| SessionCache.LoginDecision | zbx-hpmsa.py:67-78 | a missing `return-code` or `response` (descendant search) crashes; code '1' grants the response text; code '2' is a refusal; any other code is neither; never an exit |
| SessionCache.SkeyStep | zbx-hpmsa.py:47-78 | at most one login request is made, and none exactly when the cache is on and the storage's file is fresh |
| SessionCache.KeyCache.GetSkey | zbx-hpmsa.py:14-80 | the result, the new cache files and the requests made are those of `SkeyStep`; a stale file recurses once with the cache off, so the recursion depth is at most one |
| SessionCache.CachedOnlyWhenFresh | zbx-hpmsa.py:48-55 | a cached key comes back without a request only when `use_cache` is on, the file exists and `now - 15 min < mtime`; otherwise exactly the login request is made |
| SessionCache.LoginThenLookup | zbx-hpmsa.py:48-75 | a granted login overwrites the storage's file with the key, even with the cache off, and returns the key; a later cached lookup at t' reads the key back without a request iff t' < t + 15 min |
| SessionCache.NoWriteUnlessGranted | zbx-hpmsa.py:72-78 | code '2', any other code and a crash leave the files untouched; code '2' returns '2' and any other code returns None |
| SessionCache.OtherStoragesUnchanged | zbx-hpmsa.py:45-74 | a call for one storage leaves another storage's cache file as it was |
| SessionCache.OneFilePerStorage | zbx-hpmsa.py:73-74 | after a call, the only file that can be new is the storage's own |
| Api.ReadStatus | zbx-hpmsa.py:108-112 | the envelope exists iff the `status` OBJECT has both the `return-code` and the `response` PROPERTY, and it carries the whole reply |
| Api.StatusRoundTrip | zbx-hpmsa.py:108-112 | a reply led by a status OBJECT gives back exactly that code and description |
| Msa.QueryXmlApi | zbx-hpmsa.py:104-117 | the envelope when both status PROPERTYs exist, otherwise the "Cannot parse XML" exit; it never crashes |
| Msa.GetHealth | zbx-hpmsa.py:139-178 | the result and URL are those of `Msa.Health`; the controllers/enclosures dict is filled by a loop over the items |
| Msa.HealthRejectsUnknown | zbx-hpmsa.py:139-144 | no request is made iff the component is not one of the four names, and then the result is the Wrong component exit |
| Msa.HealthOfOneItem | zbx-hpmsa.py:139-162 | disks and vdisks put the item in the URL; the result is the first `health` of the first matching OBJECT that has one; "No such id" iff none has |
| Msa.HealthOfGroup | zbx-hpmsa.py:164-175 | controllers and enclosures: found iff some item carries the id; the last item with that id gives the health; otherwise the "No such id" exit |
| Msa.MakeDiscovery | zbx-hpmsa.py:197-244 | the result and URL are those of `Msa.Discovery`; the record list is appended to in a loop |
| Msa.DiscoveryRules | zbx-hpmsa.py:207-242 | a code other than '0' exits with the description; otherwise one record per OBJECT of the kind, in document order, each with exactly the kind's keys; no objects or an unknown component give `{"data":[]}` |
| Msa.DiscoveryCaseFree | zbx-hpmsa.py:213-234 | for every component and reply, the result is that of the component's lower-case spelling |
| Msa.GetAll | zbx-hpmsa.py:266-333 | the result and URL are those of `Msa.All` (URL ending in `/`, return code '0' required, then the component's dict) |
| Msa.AllRules | zbx-hpmsa.py:271-333 | a non-zero code exits with code and description; `enclosures` is rejected; for disks, the dict is built iff every drive has its four PROPERTYs |
| Mappers.Discover | zbx-hpmsa.py:212-240 | the loop appends exactly one record per item in order, or crashes at the first item missing a PROPERTY |
| Mappers.RecordKeys | zbx-hpmsa.py:214-240 | every record of a kind has exactly that kind's fixed keys, in order |
| Mappers.DiscoveryShape | zbx-hpmsa.py:212-242 | the records exist iff every item has its PROPERTYs; there is one per item with the fixed keys; no items give no records |
| Mappers.BulkDisks | zbx-hpmsa.py:274-288 | the loop's dict is the location → (health, temperature, work_hours) map of the drives in order, with the later duplicate winning |
| Mappers.BulkVdisks | zbx-hpmsa.py:289-300 | the loop's dict is the name → (health) map of the virtual disks, with the later duplicate winning |
| Mappers.PortsLoop | zbx-hpmsa.py:308-326 | `ports_info` is the port → (health, status, sfp_status) map; the controller is assigned into the dict only when it has at least one port |
| Mappers.BulkControllers | zbx-hpmsa.py:301-326 | the controller dict holds exactly the controllers that have ports, keyed by controller-id, with the later duplicate winning |
| Mappers.EntryOfController | zbx-hpmsa.py:301-326 | a controller record has its health, cf_health and ports map, and it is kept iff the controller has a `ports` OBJECT |
| Mappers.KeptIffPorts | zbx-hpmsa.py:304-326 | a controller is filed under its controller-id and kept iff it has a `ports` OBJECT |
| Mappers.ControllerPresence | zbx-hpmsa.py:301-326 | an id is in the bulk controller map iff some controller with that id has a `ports` OBJECT |
| Mappers.HealthById | zbx-hpmsa.py:166-170 | the loop's dict is the id → health map of the items in order, or None when an item lacks its id or health |
| Mappers.HealthOfLast | zbx-hpmsa.py:166-170 | the last item carrying an id decides that id's health |
| Mappers.HealthDictBuilt | zbx-hpmsa.py:167-170 | the dict is built, without a crash, when every item has its id and health |
| Mappers.HealthKeys | zbx-hpmsa.py:166-172 | an id is in the dict iff some item carries it |
| Mappers.LookupFound | zbx-hpmsa.py:166-173 | looking up an item that some object carries yields the health of the last object carrying it |
| Mappers.LookupMissing | zbx-hpmsa.py:166-175 | an item no object carries is not found, and the dict itself is built |
| Mappers.CollectBulk | zbx-hpmsa.py:274-328 | runs the loop of the component and returns the dict that `BulkOf` specifies |
| Mappers.BulkComponents | zbx-hpmsa.py:274-328 | only the exact names disks, vdisks and controllers are accepted, and any other exits with the fixed message; disks succeed iff every drive has its PROPERTYs |
| Mappers.DiskEntryOf | zbx-hpmsa.py:277-288 | a drive is filed under its location with exactly health, temperature and work_hours |
| Mappers.DiskOfLast | zbx-hpmsa.py:275-288 | the last drive with a location decides its record |
| Mappers.BulkDiskKeys | zbx-hpmsa.py:275-288 | the disk dict's keys are exactly the drive locations |
| Mappers.VdiskEntryOf | zbx-hpmsa.py:292-300 | a virtual disk is filed under its name with exactly its health |
| Mappers.VdiskOfLast | zbx-hpmsa.py:290-300 | the last virtual disk with a name decides its health |
| Mappers.BulkVdiskKeys | zbx-hpmsa.py:290-300 | the vdisk dict's keys are exactly the virtual-disk names |
| Msa03.Skey | 0.3/zbx-hpmsa.py:36-43 | crashes iff a status PROPERTY is missing (descendant search); never an exit |
| Msa03.SkeyCodes | 0.3/zbx-hpmsa.py:37-43 | '2' for code '2', the response text for code '1', None for any other code |
| Msa03.Query | 0.3/zbx-hpmsa.py:65-71 | the envelope when both status PROPERTYs exist, otherwise a crash (there is no handler) |
| Msa03.Retry | 0.3/zbx-hpmsa.py:107-120 | the loop never exits; it ends after at most 3 re-logins with a numeric code, and the code is zero when it ends before the third |
| Msa03.RetryLoop | 0.3/zbx-hpmsa.py:108-118 | the `while` loop over `attempts` computes `Retry` from zero attempts |
| Msa03.RetryStep | 0.3/zbx-hpmsa.py:111-117 | a refused reply with an answered login moves the loop to the next reply |
| Msa03.RetryStops | 0.3/zbx-hpmsa.py:111 | a zero code, or the third attempt, ends the loop with that reply |
| Msa03.RetryRun | 0.3/zbx-hpmsa.py:111-117 | with replies s..k-1 refused, the loop ends holding reply k: the first zero code, or the fourth reply |
| Msa03.GetValue | 0.3/zbx-hpmsa.py:93-157 | the result and URL are those of `Msa03.Value`: URL choice, retry, then the health |
| Msa03.ValueUrls | 0.3/zbx-hpmsa.py:93-98 | vdisks (any case) and disks append `/item`, controllers omit it, anything else is rejected before any request |
| Msa03.ValueAfterRetries | 0.3/zbx-hpmsa.py:107-136 | when the first k ≤ 3 replies are refused and reply k has code zero, the value is read from reply k |
| Msa03.ValueGivesUp | 0.3/zbx-hpmsa.py:119-120 | four refused replies exit with the last description |
| Msa03.HealthLengthRules | 0.3/zbx-hpmsa.py:124-136 | a vdisk health is returned unless it is empty; a disk health is returned unless it is exactly one character; otherwise the handle-error string |
| Msa03.ControllerKeyChoice | 0.3/zbx-hpmsa.py:143-147 | a one-character item is matched on controller-id, anything else on serial-number |
| Msa03.ControllerFound | 0.3/zbx-hpmsa.py:140-152 | the health of the last controller carrying the item |
| Msa03.ControllerMissing | 0.3/zbx-hpmsa.py:140-154 | a miss returns the error that prints the whole id → health dict |
| Msa03.GetAll | 0.3/zbx-hpmsa.py:256-323 | the result is `Msa03.All`; the URL ends with `/` |
| Msa03.AllGatedOnStatus | 0.3/zbx-hpmsa.py:263-323 | a status other than 200 gives None; with status 200 the dict is read whatever the return code, and `enclosures` exits |
| Msa03.GroupsSnoc | 0.3/zbx-hpmsa.py:178-190 | each component appends its `{#ALL_...}` record after the earlier ones |
| Msa03.CollectGroups | 0.3/zbx-hpmsa.py:176-191 | the `for` loop over disks, vdisks and controllers computes `Groups` |
| Msa03.MakeDiscovery | 0.3/zbx-hpmsa.py:176-234 | the result is `Msa03.Discovery`: 'all' in any case aggregates; otherwise a non-zero code exits and the records are listed; the URL is `http://{storage}/api/show/{component}`, None for 'all' and for a None component |
| Msa03.DiscoveryCaseFree | 0.3/zbx-hpmsa.py:176-226 | for every component and reply, the result is that of the component's lower-case spelling, 'all' included |
| Msa03.AllDiscovery | 0.3/zbx-hpmsa.py:176-191 | 'all' gives a dict, not JSON, with exactly `{#ALL_DISKS}`, `{#ALL_VDISKS}`, `{#ALL_CONTROLLERS}` in that order, each holding that component's `get_all` output |
| Msa025.Skey | 0.2.5/zbx-hpmsa.py:41-46 | the first status `response` at any depth: none or no text crashes; an empty text exits; otherwise the non-empty key |
| Msa025.SkeyOfStatus | 0.2.5/zbx-hpmsa.py:41-44 | a reply led by a status OBJECT yields its response text as the key |
| Msa025.GetValue | 0.2.5/zbx-hpmsa.py:66-110 | the result and URL are those of `Msa025.Value`: exact names; any other component raises before a request |
| Msa025.SingleHealthRule | 0.2.5/zbx-hpmsa.py:84-92 | when exactly one health PROPERTY lies under the matching OBJECTs (one or several of them), its text is the value |
| Msa025.NotSingleHealth | 0.2.5/zbx-hpmsa.py:84-92 | zero or several matching health PROPERTYs give None |
| Msa025.ControllerFound | 0.2.5/zbx-hpmsa.py:94-104 | the health of the last controller carrying the item on the id chosen by its length |
| Msa025.ControllerMissing | 0.2.5/zbx-hpmsa.py:94-106 | a miss returns `ERROR: No such controller (item)` |
| Msa025.JsonBody | 0.2.5/zbx-hpmsa.py:147-163 | the `+=` loop leaves every record's text followed by a comma, or crashes at the first item missing a PROPERTY |
| Msa025.MakeDiscovery | 0.2.5/zbx-hpmsa.py:128-166 | the result is `Msa025.Discovery`; the URL holds the component as printed |
| Msa025.DiscoveryIsJson | 0.2.5/zbx-hpmsa.py:146-166 | appending `rec + ','`, stripping one comma and wrapping gives `{"data":[` + join + `]}`, the records written verbatim in document order; no records give `{"data":[]}` |
| Msa025.EmptyBodyExits | 0.2.5/zbx-hpmsa.py:141-145 | a zero-length body exits before anything is parsed |
| Legacy024.Skey | old_versions/0.2.4/zbx-hpmsa.py:41-45 | the text of the root's first child's third child: a missing node or text crashes; an empty key exits; otherwise the non-empty key |
| Legacy024.SkeyCopiesAgree | 0.2.4/zbx-hpmsa.py:36-40 | the released copy reads the same key and differs only in its empty-key message |
| Legacy024.GetValue | old_versions/0.2.4/zbx-hpmsa.py:65-88 | the URL always carries the item; the result is `Legacy024.Value`: the nested `Health` scan for vdisks and disks; otherwise 'Wrong component' in the archived copy and None in the released one |
| Legacy024.Scan | old_versions/0.2.4/zbx-hpmsa.py:81-85 | the outer loop returns the first hit, crashing on an OBJECT without a name |
| Legacy024.FirstHealth | old_versions/0.2.4/zbx-hpmsa.py:83-85 | the inner loop returns the first PROPERTY displayed as `Health` |
| Legacy024.FirstDisplayedAt | old_versions/0.2.4/zbx-hpmsa.py:83-85 | the first PROPERTY with the display name, and only it, is found |
| Legacy024.FirstDisplayedNone | old_versions/0.2.4/zbx-hpmsa.py:83-85 | without that display name nothing is found |
| Legacy024.ScanFinds | old_versions/0.2.4/zbx-hpmsa.py:80-85 | the first `Health` of the first disk OBJECT that has one is returned |
| Legacy024.ScanMisses | old_versions/0.2.4/zbx-hpmsa.py:80-86 | no disk OBJECT with a `Health` gives None |
| Legacy024.ScanCrashes | old_versions/0.2.4/zbx-hpmsa.py:81-82 | an OBJECT without a name before any hit raises |
| Legacy024.ValueComponents | 0.2.4/zbx-hpmsa.py:63-71 | vdisks and disks scan alike; other components give the copy's answer without looking at the reply |
| Legacy024.MakeDiscovery | old_versions/0.2.4/zbx-hpmsa.py:106-150 | the result is `Legacy024.Discovery` (the released copy differs only in its messages); the URL holds the component as printed |
| Legacy024.Accumulate | old_versions/0.2.4/zbx-hpmsa.py:127-132 | the nested loops add the pieces of every PROPERTY of every OBJECT with the name |
| Legacy024.PropertyPieces | old_versions/0.2.4/zbx-hpmsa.py:129-132 | the inner loop adds every PROPERTY's piece, in `iter` order |
| Legacy024.VdiskPieceIsRecord | old_versions/0.2.4/zbx-hpmsa.py:130-132 | a `Name` piece is its record's JSON text followed by a comma |
| Legacy024.NamePieces | old_versions/0.2.4/zbx-hpmsa.py:129-132 | one OBJECT's pieces are its `Name` records, each followed by a comma |
| Legacy024.VdiskBody | old_versions/0.2.4/zbx-hpmsa.py:127-132 | the vdisk body is every vdisk record followed by a comma |
| Legacy024.VdiskDiscovery | old_versions/0.2.4/zbx-hpmsa.py:126-135 | with n ≥ 1 names, the output is `{"data":[` + join + `]}`; with none it is `{"data":[}]}` |
| Legacy024.UnmarkedSilent | old_versions/0.2.4/zbx-hpmsa.py:139-145 | only `Location` and `Serial Number` PROPERTYs write anything |
| Legacy024.PairPieces | old_versions/0.2.4/zbx-hpmsa.py:140-145 | a `Location` followed by a `Serial Number` writes their record and a comma |
| Legacy024.DriveText | old_versions/0.2.4/zbx-hpmsa.py:138-145 | a drive yielding Location then Serial Number writes one record and a comma |
| Legacy024.DiskBody | old_versions/0.2.4/zbx-hpmsa.py:137-145 | the disk body is every drive's record followed by a comma |
| Legacy024.DiskDiscovery | 0.2.4/zbx-hpmsa.py:111-123 | when every drive yields Location then Serial Number, the output is the well-formed `{"data":[...]}` of their records |
| Legacy024.EmptyBodyExits | 0.2.4/zbx-hpmsa.py:95-98 | a zero-length body exits with the copy's own message |

## Left out

- HTTP: requests, `urlopen`, headers, connection errors and the
  `URLError`/errno 11001 branches are transport. Each handler is given the
  parsed reply to its request. In 0.3 `get_all`, only the status code is
  kept, because the script branches on it.
- XML parsing from bytes (`fromstring`) is not modelled. A reply whose bytes
  are not XML is out of scope. The 0.2.x zero-length check is modelled as
  the `EmptyBody` case of `Xml.Body`.
- MD5 is the parameter `hash`, because it is uninterpreted here.
- Filesystem and clock: `os.name`, the `/tmp` choice, `makedirs`, and
  `open`/`read`/`write` become the map in `SessionCache.KeyCache`. The
  modification time and the clock are whole seconds (`now`). The cache
  directory is the POSIX one.
- `json.dumps`: the current script and 0.3 return the record list (`Msa.Discovery`) or
  the bulk value (`Mappers.Bulk`) instead of their serialised text, because
  escaping and `ensure_ascii` are library details. The 0.2.x hand-built
  strings are modelled exactly, values written verbatim.
- 0.3 `make_discovery('all')` returns its `{"data": ...}` dict; it is
  modelled by the ordered list of its records (`Msa03.Discovered.Grouped`).
- The command line: `argparse`, `gethostbyname`, the `__main__` dispatch and
  printing are not modelled. In 0.3, `get_value` re-logs in with the global
  `args`; the model takes the login replies as a parameter.
- Python details:
  - `int()` also accepts surrounding whitespace, digit underscores and
    non-ASCII decimal digits (such as Arabic-Indic zero); `Text.IntIsZero`
    accepts only ASCII digits and treats the others as a crash.
  - `str.lower()` is modelled on ASCII letters only.
  - `repr()` escaping of quotes inside dict keys and values is not modelled.
- Msa03.Retry: the key from a re-login is used only as the `sessionKey`
  header of the re-query, which is transport; the replies to the re-query are
  given as parameters, so the model keeps only whether getting the key
  crashed and drops the key's value.
- Branches no input reaches have no case of their own:
  - the final `else` of the current `make_discovery`: a component that is
    not None passes the `or`, and None raises inside it;
  - the `SystemExit(...)` the 0.2.x `make_discovery` builds but never
    raises, behind the same `or`.

  The 'Wrong component:' returns of 0.3 and 0.2.5 `get_value` are kept in
  `ValueOf`. `Value` never reaches them: the URL guard exits first in 0.3,
  and the unbound `get_url` raises first in 0.2.5.
