/**
 * Logging in to the storage and caching the session key (zbx-hpmsa.py,
 * `get_skey`). The cache directory holds one file per storage whose
 * modification time is the moment the key was written; the filesystem is
 * a map from file name to (content, mtime) and the clock is the parameter
 * `now`, in seconds.
 */
module SessionCache {
  import opened Results
  import opened Xml
  import opened Text

  /** The cache directory on a POSIX system. */
  const CacheDir: string := "/tmp/zbx-hpmsa/"

  /** A cached key is alive for 15 minutes. */
  const Lifetime: int := 15 * 60

  /** `'{temp_dir}zbx-hpmsa_{str}.skey'`: the name depends on the storage only. */
  function CacheFile(storage: string): string {
    CacheDir + "zbx-hpmsa_" + storage + ".skey"
  }

  /** Two storages never share a cache file. */
  lemma CacheFileInjective(a: string, b: string)
    ensures CacheFile(a) == CacheFile(b) <==> a == b
  {
    var prefix := CacheDir + "zbx-hpmsa_";
    if CacheFile(a) == CacheFile(b) {
      assert |a| == |b|;
      assert CacheFile(a) == prefix + a + ".skey";
      assert CacheFile(a)[|prefix|..|prefix| + |a|] == a;
      assert CacheFile(b)[|prefix|..|prefix| + |b|] == b;
    }
  }

  /** `'_'.join([login, password])`. */
  function LoginData(login: string, password: string): string {
    Join([login, password], "_")
  }

  /** The login URL; `hash` is md5 as a hexadecimal digest. */
  function LoginUrl(storage: string, login: string, password: string, hash: string -> string): string {
    "http://" + storage + "/api/login/" + hash(LoginData(login, password))
  }

  /** The login URL is the storage's login path followed by the digest of `login_password`. */
  lemma LoginUrlShape(storage: string, login: string, password: string, hash: string -> string)
    ensures var url := LoginUrl(storage, login, password, hash);
      var path := "http://" + storage + "/api/login/";
      && url[..|path|] == path
      && url[|path|..] == hash(login + "_" + password)
  {
    assert Join([login, password], "_") == login + "_" + Join([password], "_");
  }

  /** What a login reply says: return code 1 with its response text, code 2, or anything else. */
  datatype Login = Granted(message: Option<string>) | Refused | Unknown

  /**
   * The return code and response are the first PROPERTYs so named anywhere
   * below the root (`.//`); reading `.text` of a missing one raises.
   */
  function LoginDecision(reply: Element): (r: Res<Login>)
    ensures r.Crash? <==> FindDeep(reply, "PROPERTY", "return-code").None? || FindDeep(reply, "PROPERTY", "response").None?
    ensures r.Exit? ==> false
    ensures r == Ok(Refused) <==> !r.Crash? && FindDeep(reply, "PROPERTY", "return-code").value.text == Some("2")
    ensures r.Ok? && r.value.Granted? <==> !r.Crash? && FindDeep(reply, "PROPERTY", "return-code").value.text == Some("1")
    ensures r.Ok? && r.value.Granted? ==> r.value.message == FindDeep(reply, "PROPERTY", "response").value.text
  {
    var code := TextOf(FindDeep(reply, "PROPERTY", "return-code"));
    var message := TextOf(FindDeep(reply, "PROPERTY", "response"));
    if code.None? || message.None? then Crash
    else if code.value == Some("1") then Ok(Granted(message.value))
    else if code.value == Some("2") then Ok(Refused)
    else Ok(Unknown)
  }

  /** What `get_skey` returns for a login: the key, the sentinel '2', or None. */
  function SessionKey(l: Login): Option<string> {
    match l
    case Granted(m) => m
    case Refused => Some("2")
    case Unknown => None
  }

  /** The cache files: file name -> (content, mtime in seconds). */
  type Files = map<string, (string, int)>

  /** The cache file exists and was written less than 15 minutes before `now`. */
  predicate Fresh(files: Files, storage: string, now: int) {
    CacheFile(storage) in files && now - Lifetime < files[CacheFile(storage)].1
  }

  /** The outcome of one `get_skey` call: its result, the files after it, and the URLs it requested. */
  datatype Step = Step(result: Res<Option<string>>, files: Files, requests: seq<string>)

  /** The login branch: one request; a granted key is written with mtime `now`. */
  function LoginStep(files: Files, storage: string, login: string, password: string,
                     now: int, hash: string -> string, reply: Element): Step
  {
    var url := LoginUrl(storage, login, password, hash);
    var d := LoginDecision(reply);
    if d.Crash? then Step(Crash, files, [url])
    else if d.value.Granted? then Step(Ok(d.value.message), files[CacheFile(storage) := (Str(d.value.message), now)], [url])
    else Step(Ok(SessionKey(d.value)), files, [url])
  }

  /**
   * The reference behaviour of `get_skey`: with the cache on and a file
   * present, a fresh file is read back and a stale one leads to the login
   * branch; otherwise the login branch.
   */
  function SkeyStep(files: Files, storage: string, login: string, password: string, useCache: bool,
                    now: int, hash: string -> string, reply: Element): (s: Step)
    ensures |s.requests| <= 1
    ensures s.requests == [] <==> useCache && Fresh(files, storage, now)
  {
    if useCache && Fresh(files, storage, now) then Step(Ok(Some(files[CacheFile(storage)].0)), files, [])
    else LoginStep(files, storage, login, password, now, hash, reply)
  }

  /** The cache directory of one host. */
  class KeyCache {
    var files: Files

    constructor ()
      ensures files == map[]
    {
      files := map[];
    }

    /**
     * `get_skey(storage, login, password, use_cache)`; `reply` is what the
     * login URL answers. A stale file makes the function call itself once
     * with the cache off.
     */
    method GetSkey(storage: string, login: string, password: string, useCache: bool,
                   now: int, hash: string -> string, reply: Element)
      returns (r: Res<Option<string>>, requests: seq<string>)
      modifies this
      decreases useCache
      ensures Step(r, files, requests) == SkeyStep(old(files), storage, login, password, useCache, now, hash, reply)
    {
      var cacheFile := CacheFile(storage);
      if useCache && cacheFile in files {
        if now - Lifetime < files[cacheFile].1 {
          r, requests := Ok(Some(files[cacheFile].0)), [];
        } else {
          r, requests := GetSkey(storage, login, password, false, now, hash, reply);
        }
      } else {
        var url := LoginUrl(storage, login, password, hash);
        requests := [url];
        var d := LoginDecision(reply);
        if d.Crash? {
          r := Crash;
        } else if d.value.Granted? {
          files := files[cacheFile := (Str(d.value.message), now)];
          r := Ok(d.value.message);
        } else {
          r := Ok(SessionKey(d.value));
        }
      }
    }
  }

  // ----- what the cache promises -----

  /** A cached key is returned, without a request, only with the cache on and a fresh file. */
  lemma CachedOnlyWhenFresh(files: Files, storage: string, login: string, password: string, useCache: bool,
                            now: int, hash: string -> string, reply: Element)
    ensures var s := SkeyStep(files, storage, login, password, useCache, now, hash, reply);
      if useCache && Fresh(files, storage, now)
      then s == Step(Ok(Some(files[CacheFile(storage)].0)), files, [])
      else s.requests == [LoginUrl(storage, login, password, hash)] && s.result.Ok? == LoginDecision(reply).Ok?
  {
  }

  /**
   * A granted login writes the storage's file, with or without the cache,
   * and returns the response text; a later call for the same storage at
   * `later` reads that key back (as text: None becomes "None") without a
   * request exactly when `later < now + 15 min`.
   */
  lemma LoginThenLookup(files: Files, storage: string, login: string, password: string, useCache: bool,
                        now: int, later: int, hash: string -> string, reply: Element, reply2: Element)
    requires LoginDecision(reply).Ok? && LoginDecision(reply).value.Granted?
    requires !(useCache && Fresh(files, storage, now))
    ensures var first := SkeyStep(files, storage, login, password, useCache, now, hash, reply);
      var m := LoginDecision(reply).value.message;
      var second := SkeyStep(first.files, storage, login, password, true, later, hash, reply2);
      && first.result == Ok(m)
      && first.files == files[CacheFile(storage) := (Str(m), now)]
      && (second.requests == [] <==> later < now + Lifetime)
      && (later < now + Lifetime ==> second.result == Ok(Some(Str(m))))
  {
  }

  /** Code 2, any other code and a crashing reply leave the cache files as they were. */
  lemma NoWriteUnlessGranted(files: Files, storage: string, login: string, password: string, useCache: bool,
                             now: int, hash: string -> string, reply: Element)
    requires !(LoginDecision(reply).Ok? && LoginDecision(reply).value.Granted?)
    ensures SkeyStep(files, storage, login, password, useCache, now, hash, reply).files == files
    ensures LoginDecision(reply) == Ok(Refused) && !(useCache && Fresh(files, storage, now)) ==>
      SkeyStep(files, storage, login, password, useCache, now, hash, reply).result == Ok(Some("2"))
    ensures LoginDecision(reply) == Ok(Unknown) && !(useCache && Fresh(files, storage, now)) ==>
      SkeyStep(files, storage, login, password, useCache, now, hash, reply).result == Ok(None)
  {
  }

  /** A call for one storage never changes the cache file of another storage. */
  lemma OtherStoragesUnchanged(files: Files, storage: string, other: string, login: string, password: string,
                               useCache: bool, now: int, hash: string -> string, reply: Element)
    requires other != storage
    ensures var after := SkeyStep(files, storage, login, password, useCache, now, hash, reply).files;
      (CacheFile(other) in after <==> CacheFile(other) in files)
      && (CacheFile(other) in files ==> after[CacheFile(other)] == files[CacheFile(other)])
  {
    CacheFileInjective(storage, other);
  }

  /** After a call the storage has at most one cache file: every file the call leaves was there before or is its own. */
  lemma OneFilePerStorage(files: Files, storage: string, login: string, password: string,
                          useCache: bool, now: int, hash: string -> string, reply: Element)
    ensures var after := SkeyStep(files, storage, login, password, useCache, now, hash, reply).files;
      after.Keys <= files.Keys + {CacheFile(storage)}
  {
  }
}
