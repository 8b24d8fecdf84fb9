/** The multi-cloud client: it hydrates an account from the cache, calls the
    account's cluster service, optionally waits on the result, and saves the
    account back to the cache on every exit. It also owns the deletion and the
    download of a cluster's credential bundle on disk.

    The cluster service is reached through oracles (parameters holding what
    each service call returns if it is made), the file system is a map from
    path to entry, and the cache is the log of the accounts it saved. */
module Client {
  import opened Common

  const UnsafePathMessage: string := "Path to cluster is empty, the current directory, or a root path, not deleting"
  const MissingCaMessage: string := "Path to cluster credentials exists but not the ca.pem, not deleting"
  const RemoveFailedMessage: string := "Unable to delete the credentials on disk"
  const SaveCredentialsFailed: string := "Unable to save downloaded cluster credentials"
  const CacheDirFailed: string := "Unable to create cache directory"

  /** An account: its identity and the cloud type that selects its backend. */
  datatype Account = Account(id: string, cloudType: string)

  datatype ClusterTemplate = ClusterTemplate(name: string, coe: string, hostType: string)

  /** A credentials bundle: file name to contents. */
  type Bundle = map<string, seq<bv8>>

  /** A Go `(value, error)` pair as a cluster service returns it: the value
      may be present alongside an error and is passed on unchanged. */
  datatype Reply<+T> = Reply(value: T, err: Option<Error>)

  /** `wrapClientError`: nil stays nil; any other error is wrapped as a client error. */
  function WrapClientError(err: Option<Error>): (r: Option<Error>)
    ensures r.None? <==> err.None?
    ensures err.Some? ==> r.value.ClientError? && r.value.inner == err.value
  {
    match err
    case None => None
    case Some(e) => Some(ClientError(e))
  }

  // ---------------------------------------------------------------------
  // File system and paths

  datatype Entry = Dir | File(data: seq<bv8>)

  /** `filepath.Clean`, `filepath.Join` and `buildClusterCredentialsPath`,
      which are given rather than modelled. */
  datatype PathOps = PathOps(
    credentialsPath: (Account, string, string) -> Result<string>,
    clean: string -> string,
    join: (string, string) -> string)

  /** `q` is `p` itself or lies below it. */
  predicate Under(q: string, p: string)
  {
    q == p || p + "/" <= q
  }

  /** The file system once `os.RemoveAll(p)` succeeded. */
  function RemoveTree(entries: map<string, Entry>, p: string): (r: map<string, Entry>)
    ensures forall q :: q in r <==> q in entries && !Under(q, p)
    ensures forall q :: q in r ==> r[q] == entries[q]
  {
    map q | q in entries && !Under(q, p) :: entries[q]
  }

  /** The file system once `os.MkdirAll(p)` succeeded: an existing entry is kept. */
  function MakeDir(entries: map<string, Entry>, p: string): (r: map<string, Entry>)
    ensures p in r && r.Keys == entries.Keys + {p}
    ensures forall q :: q in entries ==> r[q] == entries[q]
  {
    if p in entries then entries else entries[p := Dir]
  }

  /** A path that deletion must never be attempted against. */
  predicate UnsafePath(p: string)
  {
    p == "" || p == "." || p == "/"
  }

  /** The file system and the path of the local cache. */
  class FileSystem {
    var entries: map<string, Entry>

    constructor (entries: map<string, Entry>)
      ensures this.entries == entries
    {
      this.entries := entries;
    }

    /** `os.MkdirAll` when it succeeds. */
    method MkdirAll(p: string)
      modifies this
      ensures entries == MakeDir(old(entries), p)
    {
      if p !in entries {
        entries := entries[p := Dir];
      }
    }

    /** `ioutil.WriteFile` when it succeeds. */
    method WriteFile(p: string, data: seq<bv8>)
      modifies this
      ensures entries == old(entries)[p := File(data)]
    {
      entries := entries[p := File(data)];
    }

    /** `os.RemoveAll` when it succeeds. */
    method RemoveAll(p: string)
      modifies this
      ensures entries == RemoveTree(old(entries), p)
    {
      entries := RemoveTree(entries, p);
    }
  }

  /** What `DeleteClusterCredentials` returns and leaves on disk, given the
      built credentials path `located` and what `os.RemoveAll` would report. */
  function CredentialRemoval(located: Result<string>, ops: PathOps, entries: map<string, Entry>, removeErr: Option<Error>)
    : (r: (Option<Error>, map<string, Entry>))
    ensures located.Err? ==> r == (Some(located.error), entries)
    ensures located.Ok? && UnsafePath(ops.clean(located.value)) ==> r == (Some(Message(UnsafePathMessage)), entries)
    ensures located.Ok? && !UnsafePath(ops.clean(located.value)) && ops.clean(located.value) !in entries ==> r == (None, entries)
    ensures (located.Ok? && !UnsafePath(ops.clean(located.value)) && ops.clean(located.value) in entries
              && ops.join(ops.clean(located.value), "ca.pem") !in entries) ==> r == (Some(Message(MissingCaMessage)), entries)
    ensures r.1 != entries ==>
              && located.Ok? && !UnsafePath(ops.clean(located.value))
              && ops.clean(located.value) in entries && ops.join(ops.clean(located.value), "ca.pem") in entries
              && removeErr.None? && r.0.None?
              && r.1 == RemoveTree(entries, ops.clean(located.value))
    ensures (located.Ok? && !UnsafePath(ops.clean(located.value)) && ops.clean(located.value) in entries
              && ops.join(ops.clean(located.value), "ca.pem") in entries) ==>
              r == (if removeErr.Some? then (Some(Wrapped(RemoveFailedMessage, removeErr.value)), entries)
                    else (None, RemoveTree(entries, ops.clean(located.value))))
    ensures r.0.None? && located.Ok? && ops.clean(located.value) in entries ==>
              forall q :: q in r.1 ==> !Under(q, ops.clean(located.value))
    ensures forall q :: q in r.1 ==> q in entries && r.1[q] == entries[q]
  {
    match located
    case Err(e) => (Some(e), entries)
    case Ok(path) =>
      var p := ops.clean(path);
      if UnsafePath(p) then (Some(Message(UnsafePathMessage)), entries)
      else if p !in entries then (None, entries)
      else if ops.join(p, "ca.pem") !in entries then (Some(Message(MissingCaMessage)), entries)
      else if removeErr.Some? then (Some(Wrapped(RemoveFailedMessage, removeErr.value)), entries)
      else (None, RemoveTree(entries, p))
  }

  /** `os.MkdirAll(dir)` as `DownloadClusterCredentials` issues it: skipped for ".". */
  function EnsureDir(entries: map<string, Entry>, dir: string): map<string, Entry>
  {
    if dir == "." then entries else MakeDir(entries, dir)
  }

  /** The file system after writing, in turn, the bundle files `names` under `dir`. */
  function WriteAll(entries: map<string, Entry>, ops: PathOps, dir: string, bundle: Bundle, names: seq<string>)
    : (r: map<string, Entry>)
    requires forall i :: 0 <= i < |names| ==> names[i] in bundle
    ensures forall q :: q in entries ==> q in r
    ensures forall i :: 0 <= i < |names| ==> ops.join(dir, names[i]) in r
    ensures |names| > 0 ==> r[ops.join(dir, names[|names| - 1])] == File(bundle[names[|names| - 1]])
  {
    if names == [] then entries
    else
      var last := names[|names| - 1];
      WriteAll(entries, ops, dir, bundle, names[..|names| - 1])[ops.join(dir, last) := File(bundle[last])]
  }

  /** The paths the bundle files `names` are written to. */
  function Targets(ops: PathOps, dir: string, names: seq<string>): (t: set<string>)
    ensures t == set i | 0 <= i < |names| :: ops.join(dir, names[i])
  {
    if names == [] then {}
    else Targets(ops, dir, names[..|names| - 1]) + {ops.join(dir, names[|names| - 1])}
  }

  /** Writing a bundle adds exactly its target paths and leaves every other
      path as it was. */
  lemma {:induction false} WriteAllFootprint(entries: map<string, Entry>, ops: PathOps, dir: string, bundle: Bundle, names: seq<string>)
    requires forall i :: 0 <= i < |names| ==> names[i] in bundle
    ensures WriteAll(entries, ops, dir, bundle, names).Keys == entries.Keys + Targets(ops, dir, names)
    ensures forall q :: q in entries && q !in Targets(ops, dir, names) ==>
              WriteAll(entries, ops, dir, bundle, names)[q] == entries[q]
  {
    if names != [] {
      WriteAllFootprint(entries, ops, dir, bundle, names[..|names| - 1]);
    }
  }

  /** When no two bundle files are written to the same path, every file ends
      up on disk with its own contents. */
  lemma {:induction false} WriteAllContents(entries: map<string, Entry>, ops: PathOps, dir: string, bundle: Bundle, names: seq<string>)
    requires forall i :: 0 <= i < |names| ==> names[i] in bundle
    requires forall a, b :: a in bundle && b in bundle && a != b ==> ops.join(dir, a) != ops.join(dir, b)
    ensures forall i :: 0 <= i < |names| ==>
              var w := WriteAll(entries, ops, dir, bundle, names);
              ops.join(dir, names[i]) in w && w[ops.join(dir, names[i])] == File(bundle[names[i]])
  {
    if names != [] {
      var init := names[..|names| - 1];
      var last := names[|names| - 1];
      WriteAllContents(entries, ops, dir, bundle, init);
      forall i | 0 <= i < |names|
        ensures var w := WriteAll(entries, ops, dir, bundle, names);
                ops.join(dir, names[i]) in w && w[ops.join(dir, names[i])] == File(bundle[names[i]])
      {
        if i < |init| {
          assert init[i] == names[i];
          if ops.join(dir, names[i]) == ops.join(dir, last) {
            assert names[i] == last;
          }
        }
      }
    }
  }

  /** How many bundle files are written before the first write that fails
      (all of them when none fails). */
  function FirstFailedWrite(ops: PathOps, dir: string, names: seq<string>, writeErr: string -> Option<Error>): (k: nat)
    ensures k <= |names|
    ensures forall i :: 0 <= i < k ==> writeErr(ops.join(dir, names[i])).None?
    ensures k < |names| ==> writeErr(ops.join(dir, names[k])).Some?
  {
    if names == [] then 0
    else if writeErr(ops.join(dir, names[0])).Some? then 0
    else 1 + FirstFailedWrite(ops, dir, names[1..], writeErr)
  }

  /** The write loop of `DownloadClusterCredentials`: write the files in
      `order`, stopping at the first failure and returning its error. */
  method WriteBundle(fs: FileSystem, ops: PathOps, dir: string, bundle: Bundle, order: seq<string>,
                     writeErr: string -> Option<Error>)
    returns (err: Option<Error>)
    requires forall i :: 0 <= i < |order| ==> order[i] in bundle
    modifies fs
    ensures var k := FirstFailedWrite(ops, dir, order, writeErr);
      && fs.entries == WriteAll(old(fs.entries), ops, dir, bundle, order[..k])
      && err == (if k < |order| then writeErr(ops.join(dir, order[k])) else None)
  {
    ghost var k := FirstFailedWrite(ops, dir, order, writeErr);
    var n := 0;
    while n < |order|
      invariant n <= k
      invariant fs.entries == WriteAll(old(fs.entries), ops, dir, bundle, order[..n])
    {
      var file := ops.join(dir, order[n]);
      var failed := writeErr(file);
      if failed.Some? {
        return failed;
      }
      fs.WriteFile(file, bundle[order[n]]);
      assert order[..n + 1][..n] == order[..n];
      n := n + 1;
    }
    return None;
  }

  // ---------------------------------------------------------------------
  // Template filtering

  /** The templates whose names match `nameFilter` under the case-sensitive
      matcher `glob`, in their original order. */
  function FilterByName(templates: seq<ClusterTemplate>, nameFilter: string, glob: (string, string) -> bool)
    : (r: seq<ClusterTemplate>)
    ensures |r| <= |templates|
    ensures forall t :: t in r <==> t in templates && glob(nameFilter, t.name)
  {
    if templates == [] then []
    else
      var last := templates[|templates| - 1];
      var rest := FilterByName(templates[..|templates| - 1], nameFilter, glob);
      if glob(nameFilter, last.name) then rest + [last] else rest
  }

  /** The positions of the templates whose names match, in increasing order. */
  function MatchingPositions(templates: seq<ClusterTemplate>, nameFilter: string, glob: (string, string) -> bool)
    : (p: seq<nat>)
    ensures forall i :: 0 <= i < |p| ==> p[i] < |templates|
  {
    if templates == [] then []
    else
      var n := |templates| - 1;
      MatchingPositions(templates[..n], nameFilter, glob) + (if glob(nameFilter, templates[n].name) then [n] else [])
  }

  /** The filter's result is the templates at the matching positions. */
  lemma {:induction false} FilterSelectsPositions(templates: seq<ClusterTemplate>, nameFilter: string, glob: (string, string) -> bool)
    ensures var p := MatchingPositions(templates, nameFilter, glob);
      var r := FilterByName(templates, nameFilter, glob);
      |p| == |r| && forall i :: 0 <= i < |p| ==> r[i] == templates[p[i]]
  {
    if templates != [] {
      var n := |templates| - 1;
      FilterSelectsPositions(templates[..n], nameFilter, glob);
      var p := MatchingPositions(templates[..n], nameFilter, glob);
      forall i | 0 <= i < |p| ensures templates[..n][p[i]] == templates[p[i]] { }
    }
  }

  predicate Increasing(p: seq<nat>)
  {
    forall i, j :: 0 <= i < j < |p| ==> p[i] < p[j]
  }

  /** The matching positions are strictly increasing, so the filter keeps the
      original order. */
  lemma {:induction false} MatchingPositionsIncrease(templates: seq<ClusterTemplate>, nameFilter: string, glob: (string, string) -> bool)
    ensures Increasing(MatchingPositions(templates, nameFilter, glob))
  {
    if templates != [] {
      var n := |templates| - 1;
      MatchingPositionsIncrease(templates[..n], nameFilter, glob);
      var prev := MatchingPositions(templates[..n], nameFilter, glob);
      var p := MatchingPositions(templates, nameFilter, glob);
      forall i, j | 0 <= i < j < |p| ensures p[i] < p[j] {
        assert p[i] == prev[i];
        if j < |prev| {
          assert p[j] == prev[j];
        } else {
          assert p[j] == n && prev[i] < n;
        }
      }
    }
  }

  /** A position is listed exactly when the template there matches. */
  lemma {:induction false} MatchingPositionsExact(templates: seq<ClusterTemplate>, nameFilter: string, glob: (string, string) -> bool)
    ensures var p := MatchingPositions(templates, nameFilter, glob);
      forall j :: 0 <= j < |templates| ==> (j in p <==> glob(nameFilter, templates[j].name))
  {
    if templates != [] {
      var n := |templates| - 1;
      MatchingPositionsExact(templates[..n], nameFilter, glob);
      var p := MatchingPositions(templates[..n], nameFilter, glob);
      forall j | 0 <= j < |templates|
        ensures j in MatchingPositions(templates, nameFilter, glob) <==> glob(nameFilter, templates[j].name)
      {
        if j < n {
          assert templates[..n][j] == templates[j];
        } else {
          assert n !in p;
        }
      }
    }
  }

  /** The filtering loop of `ListClusterTemplates`. */
  method FilterTemplates(templates: seq<ClusterTemplate>, nameFilter: string, glob: (string, string) -> bool)
    returns (filtered: seq<ClusterTemplate>)
    ensures filtered == FilterByName(templates, nameFilter, glob)
  {
    filtered := [];
    for i := 0 to |templates|
      invariant filtered == FilterByName(templates[..i], nameFilter, glob)
    {
      assert templates[..i + 1][..i] == templates[..i];
      if glob(nameFilter, templates[i].name) {
        filtered := filtered + [templates[i]];
      }
    }
    assert templates[..|templates|] == templates;
  }

  // ---------------------------------------------------------------------
  // Cache

  /** The cache: where it persists ("" for an in-memory cache) and the log of
      the accounts saved into it. */
  class Cache {
    const path: string
    var saved: seq<Account>

    constructor InMemory()
      ensures path == "" && saved == []
    {
      path := "";
      saved := [];
    }

    constructor (path: string)
      ensures this.path == path && saved == []
    {
      this.path := path;
      saved := [];
    }

    method SaveAccount(account: Account)
      modifies this
      ensures saved == old(saved) + [account]
    {
      saved := saved + [account];
    }
  }

  /** The outcome of `initCache`: the error it records (`None`: leaves the
      `Error` field alone), the cache file in use, and whether it made the
      credentials directory. */
  datatype CacheSetup = CacheSetup(error: Option<Error>, file: string, madeDir: bool)

  /** `initCache` on the results of its four steps: the credentials directory,
      creating it, the cache file name, loading the file. */
  function SetUpCache(enabled: bool, credentialsDir: Result<string>, mkdirErr: Option<Error>,
                      filename: Result<string>, loadErr: Option<Error>): (r: CacheSetup)
    ensures !enabled ==> r == CacheSetup(None, "", false)
    ensures enabled ==> (r.error.None? <==> credentialsDir.Ok? && mkdirErr.None? && filename.Ok? && loadErr.None?)
    ensures r.error.Some? ==> r.error.value.CacheUnavailable? && r.file == ""
    ensures r.error.None? && enabled ==> r.file == filename.value
    ensures enabled && credentialsDir.Err? ==> r.error == Some(CacheUnavailable(credentialsDir.error))
    ensures enabled && credentialsDir.Ok? && mkdirErr.Some? ==>
              r.error == Some(CacheUnavailable(Wrapped(CacheDirFailed, mkdirErr.value)))
    ensures enabled && credentialsDir.Ok? && mkdirErr.None? && filename.Err? ==>
              r.error == Some(CacheUnavailable(filename.error))
    ensures enabled && credentialsDir.Ok? && mkdirErr.None? && filename.Ok? && loadErr.Some? ==>
              r.error == Some(CacheUnavailable(loadErr.value))
    ensures r.madeDir <==> enabled && credentialsDir.Ok? && mkdirErr.None?
  {
    if !enabled then CacheSetup(None, "", false)
    else if credentialsDir.Err? then CacheSetup(Some(CacheUnavailable(credentialsDir.error)), "", false)
    else if mkdirErr.Some? then CacheSetup(Some(CacheUnavailable(Wrapped(CacheDirFailed, mkdirErr.value))), "", false)
    else if filename.Err? then CacheSetup(Some(CacheUnavailable(filename.error)), "", true)
    else if loadErr.Some? then CacheSetup(Some(CacheUnavailable(loadErr.value)), "", true)
    else CacheSetup(None, filename.value, true)
  }

  // ---------------------------------------------------------------------
  // The client

  /** A service operation, as recorded in the client's trace. */
  datatype Operation =
    | GetQuotasOp
    | CreateClusterOp(name: string, template: string, nodes: int)
    | GetClusterCredentialsOp(name: string)
    | ListClustersOp
    | ListClusterTemplatesOp
    | GetClusterOp(name: string)
    | GrowClusterOp(name: string, nodes: int)
    | ResizeClusterOp(name: string, nodes: int)
    | RebuildClusterOp(name: string)
    | SetAutoScaleOp(name: string, value: bool)
    | DeleteClusterOp(name: string)

  /** What the client did, in order. */
  datatype Event =
    | Hydrated(account: Account)
    | Invoked(op: Operation)
    | WaitedUntilActive
    | WaitedUntilDeleted
    | CredentialsRemoval(name: string)
    | Saved(account: Account)

  /** The events of one service operation: hydrate, invoke, the optional
      waits and credential removal, and the save that always comes last. */
  function Steps(account: Account, op: Operation, extra: seq<Event>): (s: seq<Event>)
    ensures |s| == |extra| + 3 && s[|s| - 1] == Saved(account)
    ensures s[..2] == [Hydrated(account), Invoked(op)]
  {
    [Hydrated(account), Invoked(op)] + extra + [Saved(account)]
  }

  /** The reply of an operation that may wait: the service call's own reply,
      or, when a wait was asked for and the call succeeded, the wait's reply on
      the returned cluster; its error in either case wrapped as a client error. */
  function AfterOptionalWait(waitUntilActive: bool, reply: Reply<Option<Cluster>>,
                             waitActive: Option<Cluster> -> Reply<Option<Cluster>>): (r: Reply<Option<Cluster>>)
    ensures !waitUntilActive || reply.err.Some? ==> r.value == reply.value && (r.err.None? <==> reply.err.None?)
    ensures waitUntilActive && reply.err.None? ==>
              r.value == waitActive(reply.value).value && (r.err.None? <==> waitActive(reply.value).err.None?)
    ensures r.err.Some? ==> r.err.value.ClientError?
    ensures r.err == WrapClientError(if waitUntilActive && reply.err.None? then waitActive(reply.value).err else reply.err)
  {
    var last := if waitUntilActive && reply.err.None? then waitActive(reply.value) else reply;
    Reply(last.value, WrapClientError(last.err))
  }

  class Client {
    var cache: Cache
    var error: Option<Error>
    ghost var trace: seq<Event>

    /** `NewClient`. */
    constructor (cacheEnabled: bool, credentialsDir: Result<string>, mkdirErr: Option<Error>,
                 filename: Result<string>, loadErr: Option<Error>, fs: FileSystem)
      modifies fs
      ensures var setup := SetUpCache(cacheEnabled, credentialsDir, mkdirErr, filename, loadErr);
        && error == setup.error && cache.path == setup.file && cache.saved == [] && fresh(cache)
        && fs.entries == if setup.madeDir then MakeDir(old(fs.entries), credentialsDir.value) else old(fs.entries)
      ensures trace == []
    {
      cache := new Cache.InMemory();
      error := None;
      trace := [];
      new;
      InitCache(cacheEnabled, credentialsDir, mkdirErr, filename, loadErr, fs);
    }

    /** `initCache`: a disabled cache is an empty in-memory one and sets no
        error; any failing step gives an empty in-memory cache and records
        `CacheUnavailable`. */
    method InitCache(cacheEnabled: bool, credentialsDir: Result<string>, mkdirErr: Option<Error>,
                     filename: Result<string>, loadErr: Option<Error>, fs: FileSystem)
      modifies this`cache, this`error, fs
      ensures var setup := SetUpCache(cacheEnabled, credentialsDir, mkdirErr, filename, loadErr);
        && error == (if setup.error.Some? then setup.error else old(error))
        && fresh(cache) && cache.path == setup.file && cache.saved == []
        && fs.entries == if setup.madeDir then MakeDir(old(fs.entries), credentialsDir.value) else old(fs.entries)
    {
      if !cacheEnabled {
        cache := new Cache.InMemory();
        return;
      }
      if credentialsDir.Err? {
        cache := new Cache.InMemory();
        error := Some(CacheUnavailable(credentialsDir.error));
        return;
      }
      var dir := credentialsDir.value;
      if mkdirErr.Some? {
        cache := new Cache.InMemory();
        error := Some(CacheUnavailable(Wrapped(CacheDirFailed, mkdirErr.value)));
        return;
      }
      fs.MkdirAll(dir);
      if filename.Err? {
        cache := new Cache.InMemory();
        error := Some(CacheUnavailable(filename.error));
        return;
      }
      cache := new Cache(filename.value);
      if loadErr.Some? {
        cache := new Cache.InMemory();
        error := Some(CacheUnavailable(loadErr.value));
      }
    }

    /** `buildContainerService`: hydrate the account from the cache. */
    method BuildContainerService(account: Account)
      modifies this`trace
      ensures trace == old(trace) + [Hydrated(account)]
    {
      trace := trace + [Hydrated(account)];
    }

    /** The deferred `Cache.SaveAccount(account)`. */
    method SaveOnExit(account: Account)
      modifies this`trace, cache
      ensures cache.saved == old(cache.saved) + [account]
      ensures trace == old(trace) + [Saved(account)]
    {
      cache.SaveAccount(account);
      trace := trace + [Saved(account)];
    }

    /** The shape shared by `CreateCluster`, `GetCluster`, `GrowCluster`,
        `ResizeCluster` and `RebuildCluster`: call, wait only when asked and
        the call succeeded, save. */
    method CallThenWait(account: Account, op: Operation, waitUntilActive: bool,
                        reply: Reply<Option<Cluster>>, waitActive: Option<Cluster> -> Reply<Option<Cluster>>)
      returns (r: Reply<Option<Cluster>>)
      modifies this`trace, cache
      ensures cache.saved == old(cache.saved) + [account]
      ensures trace == old(trace) + Steps(account, op, if waitUntilActive && reply.err.None? then [WaitedUntilActive] else [])
      ensures r == AfterOptionalWait(waitUntilActive, reply, waitActive)
    {
      BuildContainerService(account);
      trace := trace + [Invoked(op)];
      var last := reply;
      if waitUntilActive && reply.err.None? {
        trace := trace + [WaitedUntilActive];
        last := waitActive(reply.value);
      }
      r := Reply(last.value, WrapClientError(last.err));
      SaveOnExit(account);
    }

    /** `GetQuotas`. */
    method GetQuotas(account: Account, reply: Reply<Option<Quotas>>) returns (r: Reply<Option<Quotas>>)
      modifies this`trace, cache
      ensures cache.saved == old(cache.saved) + [account]
      ensures trace == old(trace) + Steps(account, GetQuotasOp, [])
      ensures r == Reply(reply.value, WrapClientError(reply.err))
    {
      BuildContainerService(account);
      trace := trace + [Invoked(GetQuotasOp)];
      r := Reply(reply.value, WrapClientError(reply.err));
      SaveOnExit(account);
    }

    /** `CreateCluster`. */
    method CreateCluster(account: Account, name: string, template: string, nodes: int, waitUntilActive: bool,
                         reply: Reply<Option<Cluster>>, waitActive: Option<Cluster> -> Reply<Option<Cluster>>)
      returns (r: Reply<Option<Cluster>>)
      modifies this`trace, cache
      ensures cache.saved == old(cache.saved) + [account]
      ensures trace == old(trace) + Steps(account, CreateClusterOp(name, template, nodes),
                                          if waitUntilActive && reply.err.None? then [WaitedUntilActive] else [])
      ensures r == AfterOptionalWait(waitUntilActive, reply, waitActive)
    {
      r := CallThenWait(account, CreateClusterOp(name, template, nodes), waitUntilActive, reply, waitActive);
    }

    /** `ListClusters`. */
    method ListClusters(account: Account, reply: Reply<seq<Cluster>>) returns (r: Reply<seq<Cluster>>)
      modifies this`trace, cache
      ensures cache.saved == old(cache.saved) + [account]
      ensures trace == old(trace) + Steps(account, ListClustersOp, [])
      ensures r == Reply(reply.value, WrapClientError(reply.err))
    {
      BuildContainerService(account);
      trace := trace + [Invoked(ListClustersOp)];
      r := Reply(reply.value, WrapClientError(reply.err));
      SaveOnExit(account);
    }

    /** `ListClusterTemplates`: the service's list is filtered by name only
        when it came without error and a filter was given. */
    method ListClusterTemplates(account: Account, nameFilter: string, reply: Reply<seq<ClusterTemplate>>,
                                glob: (string, string) -> bool)
      returns (r: Reply<seq<ClusterTemplate>>)
      modifies this`trace, cache
      ensures cache.saved == old(cache.saved) + [account]
      ensures trace == old(trace) + Steps(account, ListClusterTemplatesOp, [])
      ensures reply.err.Some? || nameFilter == "" ==> r == Reply(reply.value, WrapClientError(reply.err))
      ensures reply.err.None? && nameFilter != "" ==> r == Reply(FilterByName(reply.value, nameFilter, glob), None)
    {
      BuildContainerService(account);
      trace := trace + [Invoked(ListClusterTemplatesOp)];
      var templates := reply.value;
      if reply.err.None? && nameFilter != "" {
        templates := FilterTemplates(templates, nameFilter, glob);
      }
      r := Reply(templates, WrapClientError(reply.err));
      SaveOnExit(account);
    }

    /** `GetCluster`. */
    method GetCluster(account: Account, name: string, waitUntilActive: bool,
                      reply: Reply<Option<Cluster>>, waitActive: Option<Cluster> -> Reply<Option<Cluster>>)
      returns (r: Reply<Option<Cluster>>)
      modifies this`trace, cache
      ensures cache.saved == old(cache.saved) + [account]
      ensures trace == old(trace) + Steps(account, GetClusterOp(name),
                                          if waitUntilActive && reply.err.None? then [WaitedUntilActive] else [])
      ensures r == AfterOptionalWait(waitUntilActive, reply, waitActive)
    {
      r := CallThenWait(account, GetClusterOp(name), waitUntilActive, reply, waitActive);
    }

    /** `GrowCluster`. */
    method GrowCluster(account: Account, name: string, nodes: int, waitUntilActive: bool,
                       reply: Reply<Option<Cluster>>, waitActive: Option<Cluster> -> Reply<Option<Cluster>>)
      returns (r: Reply<Option<Cluster>>)
      modifies this`trace, cache
      ensures cache.saved == old(cache.saved) + [account]
      ensures trace == old(trace) + Steps(account, GrowClusterOp(name, nodes),
                                          if waitUntilActive && reply.err.None? then [WaitedUntilActive] else [])
      ensures r == AfterOptionalWait(waitUntilActive, reply, waitActive)
    {
      r := CallThenWait(account, GrowClusterOp(name, nodes), waitUntilActive, reply, waitActive);
    }

    /** `ResizeCluster`. */
    method ResizeCluster(account: Account, name: string, nodes: int, waitUntilActive: bool,
                         reply: Reply<Option<Cluster>>, waitActive: Option<Cluster> -> Reply<Option<Cluster>>)
      returns (r: Reply<Option<Cluster>>)
      modifies this`trace, cache
      ensures cache.saved == old(cache.saved) + [account]
      ensures trace == old(trace) + Steps(account, ResizeClusterOp(name, nodes),
                                          if waitUntilActive && reply.err.None? then [WaitedUntilActive] else [])
      ensures r == AfterOptionalWait(waitUntilActive, reply, waitActive)
    {
      r := CallThenWait(account, ResizeClusterOp(name, nodes), waitUntilActive, reply, waitActive);
    }

    /** `RebuildCluster`. */
    method RebuildCluster(account: Account, name: string, waitUntilActive: bool,
                          reply: Reply<Option<Cluster>>, waitActive: Option<Cluster> -> Reply<Option<Cluster>>)
      returns (r: Reply<Option<Cluster>>)
      modifies this`trace, cache
      ensures cache.saved == old(cache.saved) + [account]
      ensures trace == old(trace) + Steps(account, RebuildClusterOp(name),
                                          if waitUntilActive && reply.err.None? then [WaitedUntilActive] else [])
      ensures r == AfterOptionalWait(waitUntilActive, reply, waitActive)
    {
      r := CallThenWait(account, RebuildClusterOp(name), waitUntilActive, reply, waitActive);
    }

    /** `SetAutoScale`. */
    method SetAutoScale(account: Account, name: string, value: bool, reply: Reply<Option<Cluster>>)
      returns (r: Reply<Option<Cluster>>)
      modifies this`trace, cache
      ensures cache.saved == old(cache.saved) + [account]
      ensures trace == old(trace) + Steps(account, SetAutoScaleOp(name, value), [])
      ensures r == Reply(reply.value, WrapClientError(reply.err))
    {
      BuildContainerService(account);
      trace := trace + [Invoked(SetAutoScaleOp(name, value))];
      r := Reply(reply.value, WrapClientError(reply.err));
      SaveOnExit(account);
    }

    /** `DeleteClusterCredentials`: refuses an unsafe path, does nothing when
        the path is absent, refuses a directory without `ca.pem`, and only
        otherwise removes the directory. */
    method DeleteClusterCredentials(account: Account, name: string, customPath: string, ops: PathOps,
                                    removeErr: Option<Error>, fs: FileSystem)
      returns (err: Option<Error>)
      modifies fs
      ensures (err, fs.entries) == CredentialRemoval(ops.credentialsPath(account, name, customPath), ops, old(fs.entries), removeErr)
    {
      var located := ops.credentialsPath(account, name, customPath);
      if located.Err? {
        return Some(located.error);
      }
      var p := ops.clean(located.value);
      if p == "" || p == "." || p == "/" {
        return Some(Message(UnsafePathMessage));
      }
      if p !in fs.entries {
        return None;
      }
      if ops.join(p, "ca.pem") !in fs.entries {
        return Some(Message(MissingCaMessage));
      }
      if removeErr.Some? {
        return Some(Wrapped(RemoveFailedMessage, removeErr.value));
      }
      fs.RemoveAll(p);
      err := None;
    }

    /** `DeleteCluster`: delete, wait for the deletion only when asked and the
        delete succeeded, remove the credentials (default location) only when
        both succeeded, and save. */
    method DeleteCluster(account: Account, name: string, waitUntilDeleted: bool,
                         reply: Reply<Option<Cluster>>, waitDeleted: Option<Cluster> -> Option<Error>,
                         ops: PathOps, removeErr: Option<Error>, fs: FileSystem)
      returns (err: Option<Error>)
      modifies this`trace, cache, fs
      ensures cache.saved == old(cache.saved) + [account]
      ensures var waited := waitUntilDeleted && reply.err.None?;
              var stepErr := if waited then waitDeleted(reply.value) else reply.err;
              trace == old(trace) + Steps(account, DeleteClusterOp(name),
                                          (if waited then [WaitedUntilDeleted] else [])
                                          + (if stepErr.None? then [CredentialsRemoval(name)] else []))
      ensures var stepErr := if waitUntilDeleted && reply.err.None? then waitDeleted(reply.value) else reply.err;
              stepErr.Some? ==> fs.entries == old(fs.entries) && err == WrapClientError(stepErr)
      ensures var stepErr := if waitUntilDeleted && reply.err.None? then waitDeleted(reply.value) else reply.err;
              var removal := CredentialRemoval(ops.credentialsPath(account, name, ""), ops, old(fs.entries), removeErr);
              stepErr.None? ==> fs.entries == removal.1 && err == WrapClientError(removal.0)
    {
      BuildContainerService(account);
      trace := trace + [Invoked(DeleteClusterOp(name))];
      var stepErr := reply.err;
      if waitUntilDeleted && stepErr.None? {
        trace := trace + [WaitedUntilDeleted];
        stepErr := waitDeleted(reply.value);
      }
      if stepErr.None? {
        trace := trace + [CredentialsRemoval(name)];
        stepErr := DeleteClusterCredentials(account, name, "", ops, removeErr, fs);
      }
      err := WrapClientError(stepErr);
      SaveOnExit(account);
    }

    /** `DownloadClusterCredentials`: fetch the bundle, build the destination,
        create it unless it is ".", and write each file (in `order`, the order
        Go ranges over the bundle), stopping at the first failed write. */
    method DownloadClusterCredentials(account: Account, name: string, customPath: string,
                                      creds: Result<Bundle>, order: seq<string>, ops: PathOps,
                                      mkdirErr: Option<Error>, writeErr: string -> Option<Error>, fs: FileSystem)
      returns (credentialsPath: string, err: Option<Error>)
      requires creds.Ok? ==> forall f :: f in creds.value <==> f in order
      requires forall i, j :: 0 <= i < j < |order| ==> order[i] != order[j]
      modifies this`trace, cache, fs
      ensures cache.saved == old(cache.saved) + [account]
      ensures trace == old(trace) + Steps(account, GetClusterCredentialsOp(name), [])
      ensures err.Some? ==> credentialsPath == ""
      ensures creds.Err? ==> err == Some(ClientError(creds.error)) && fs.entries == old(fs.entries)
      ensures creds.Ok? && ops.credentialsPath(account, name, customPath).Err? ==>
                err == Some(Wrapped(SaveCredentialsFailed, ops.credentialsPath(account, name, customPath).error))
                && fs.entries == old(fs.entries)
      ensures creds.Ok? && ops.credentialsPath(account, name, customPath).Ok? ==>
                var dir := ops.credentialsPath(account, name, customPath).value;
                dir != "." && mkdirErr.Some? ==> err == mkdirErr && fs.entries == old(fs.entries)
      ensures creds.Ok? && ops.credentialsPath(account, name, customPath).Ok? ==>
                var dir := ops.credentialsPath(account, name, customPath).value;
                var k := FirstFailedWrite(ops, dir, order, writeErr);
                (dir == "." || mkdirErr.None?) ==>
                  && fs.entries == WriteAll(EnsureDir(old(fs.entries), dir), ops, dir, creds.value, order[..k])
                  && (k < |order| ==> err == writeErr(ops.join(dir, order[k])))
                  && (k == |order| ==> err.None? && credentialsPath == dir)
    {
      BuildContainerService(account);
      trace := trace + [Invoked(GetClusterCredentialsOp(name))];
      credentialsPath, err := "", None;
      if creds.Err? {
        err := WrapClientError(Some(creds.error));
        SaveOnExit(account);
        return;
      }
      var bundle := creds.value;
      var located := ops.credentialsPath(account, name, customPath);
      if located.Err? {
        err := Some(Wrapped(SaveCredentialsFailed, located.error));
        SaveOnExit(account);
        return;
      }
      var dir := located.value;
      if dir != "." {
        if mkdirErr.Some? {
          err := mkdirErr;
          SaveOnExit(account);
          return;
        }
        fs.MkdirAll(dir);
      }
      forall i | 0 <= i < |order| ensures order[i] in bundle {
        assert order[i] in order;
      }
      err := WriteBundle(fs, ops, dir, bundle, order, writeErr);
      if err.None? {
        credentialsPath := dir;
      }
      SaveOnExit(account);
    }
  }
}
