/** The make-coe backend adapter: classification of libcarina errors, the
    polling state machines, template resolution over the per-instance
    cluster-type cache, and the `MakeCOE` object whose session and cache
    fields are filled lazily. Every libcarina call is an oracle: a parameter
    holding what that call returns if it is made. */
module MakeCoe {
  import opened Common

  const OutOfDateMessage: string := "Unable to communicate with the Carina API because the client is out-of-date. Update the carina client to the latest version. See https://getcarina.com/docs/tutorials/carina-cli#update for instructions."
  const TemplateRequired: string := "--template is required"
  const TemplateNotFoundPrefix: string := "Could not find template named "
  const GrowUnsupported: string := "[make-coe] Grow command not supported. Please use 'resize'."
  const RebuildUnsupported: string := "[make-coe] Rebuilding clusters from the carina cli is not supported yet"
  const AutoScaleUnsupported: string := "make-coe does not support autoscaling"
  const DeletionFailed: string := "Unable to delete cluster, an error occured while deleting."
  const CreateFailed: string := "[make-coe] Unable to create cluster"
  const ListTypesFailed: string := "[make-coe] Unabe to list cluster types"

  function GetFailed(token: string): string
  {
    "[make-coe] Unable to retrieve cluster (" + token + ")"
  }

  function DeleteFailed(token: string): string
  {
    "[make-coe] Unable to delete cluster (" + token + ")"
  }

  /** An error that carries the "update your client" advice. */
  predicate IsOutOfDate(e: Error)
  {
    e.Wrapped? && e.message == OutOfDateMessage
  }

  // ---------------------------------------------------------------------
  // Error classification

  /** `handleHTTPError`: a 406 Not Acceptable is wrapped with the advice to
      update the client; every other status is returned as it is. */
  function HandleHTTPError(err: Error): (r: Error)
    requires err.HTTPErr?
    ensures IsOutOfDate(r) <==> err.statusCode == 406
    ensures err.statusCode != 406 ==> r == err
    ensures Cause(r) == err
  {
    if err.statusCode == 406 then Wrapped(OutOfDateMessage, err) else err
  }

  /** `handleLibcarinaError`: looks through every wrapping layer. When the root
      cause is an HTTP error it is classified by `HandleHTTPError` (so the
      caller's context layers are dropped); any other error is returned as is. */
  function HandleLibcarinaError(err: Error): (r: Error)
    ensures Cause(r) == Cause(err)
    ensures Cause(err).HTTPErr? ==> (IsOutOfDate(r) <==> Cause(err).statusCode == 406)
    ensures Cause(err).HTTPErr? && Cause(err).statusCode != 406 ==> r == Cause(err)
    ensures !Cause(err).HTTPErr? ==> r == err
  {
    var cause := Cause(err);
    if cause.HTTPErr? then HandleHTTPError(cause) else err
  }

  /** The common tail of every libcarina call: success passes through, a
      failure is wrapped with `context` and classified. */
  function Checked<T>(res: Result<T>, context: string): (r: Result<T>)
    ensures res.Ok? <==> r.Ok?
    ensures res.Ok? ==> r == res
    ensures res.Err? ==> Cause(r.error) == Cause(res.error)
    ensures res.Err? && Cause(res.error).HTTPErr? ==> (IsOutOfDate(r.error) <==> HasStatus(res.error, 406))
  {
    match res
    case Ok(_) => res
    case Err(e) => Err(HandleLibcarinaError(Wrapped(context, e)))
  }

  // ---------------------------------------------------------------------
  // Deletion

  /** The placeholder cluster reported when the cluster to delete is not found. */
  function DeletedPlaceholder(): (c: Cluster)
  {
    Cluster("", "", "deleted", 0)
  }

  /** The outcome of `DeleteCluster` once the libcarina `Delete` call returned
      `res`: a 404 becomes a success holding a cluster whose status is
      "deleted"; any other failure is wrapped (around its root cause) and
      classified. */
  function DeleteReply(token: string, res: Result<Cluster>): (r: Result<Cluster>)
    ensures res.Ok? ==> r == res
    ensures res.Err? && HasStatus(res.error, 404) ==> r == Ok(DeletedPlaceholder())
    ensures res.Err? && !HasStatus(res.error, 404) ==>
              r.Err? && Cause(r.error) == Cause(res.error)
    ensures res.Err? && HasStatus(res.error, 406) ==> IsOutOfDate(r.error)
    ensures res.Err? && !HasStatus(res.error, 404) && Cause(res.error).HTTPErr? ==>
              (IsOutOfDate(r.error) <==> HasStatus(res.error, 406))
  {
    match res
    case Ok(_) => res
    case Err(e) =>
      if HasStatus(e, 404) then Ok(DeletedPlaceholder())
      else Err(HandleLibcarinaError(Wrapped(DeleteFailed(token), Cause(e))))
  }

  // ---------------------------------------------------------------------
  // Polling state machines

  /** Where a polling loop stands once the given fetches are used up. The
      source loops without bound; `StillWaiting` means it would fetch again. */
  datatype Poll<+T> = Finished(outcome: T) | StillWaiting

  /** The first `limit` results of calling `GetCluster(id)` again and again:
      `get(id, n)` is what the `n`-th call returns. */
  function Fetches(get: (string, int) -> Result<Cluster>, id: string, limit: nat): (fetches: seq<Result<Cluster>>)
    ensures |fetches| == limit
    ensures forall n :: 0 <= n < limit ==> fetches[n] == get(id, n)
  {
    seq(limit, n => get(id, n))
  }

  /** The `isDone` test of `WaitUntilClusterIsActive`. */
  predicate IsActiveDone(c: Cluster)
  {
    ToLower(c.status) == "active" || ToLower(c.status) == "error"
  }

  /** A fetch that ends the wait for "active": an error or a done status. */
  predicate ActiveTerminal(f: Result<Cluster>)
  {
    f.Err? || IsActiveDone(f.value)
  }

  /** The wait-until-active loop over successive `GetCluster` results: the
      outcome and the number of fetches it made. */
  function PollActive(fetches: seq<Result<Cluster>>): (p: (Poll<Result<Cluster>>, nat))
    ensures p.1 <= |fetches|
    ensures p.0.Finished? ==> 1 <= p.1
  {
    if fetches == [] then (StillWaiting, 0)
    else if ActiveTerminal(fetches[0]) then (Finished(fetches[0]), 1)
    else
      var rest := PollActive(fetches[1..]);
      (rest.0, rest.1 + 1)
  }

  /** The wait for "active" stops at the first terminal fetch, after exactly
      (its index + 1) fetches, and returns it (an error is returned at once);
      it keeps waiting only when no fetch is terminal. */
  lemma {:induction false} PollActiveStopsAtFirstTerminal(fetches: seq<Result<Cluster>>)
    ensures var p := PollActive(fetches);
      && (p.0.StillWaiting? <==> forall j :: 0 <= j < |fetches| ==> !ActiveTerminal(fetches[j]))
      && (p.0.StillWaiting? ==> p.1 == |fetches|)
      && (p.0.Finished? ==>
            && ActiveTerminal(fetches[p.1 - 1])
            && p.0.outcome == fetches[p.1 - 1]
            && forall j :: 0 <= j < p.1 - 1 ==> !ActiveTerminal(fetches[j]))
  {
    if fetches != [] && !ActiveTerminal(fetches[0]) {
      var tail := fetches[1..];
      PollActiveStopsAtFirstTerminal(tail);
      forall j | 1 <= j < |fetches| ensures fetches[j] == tail[j - 1] { }
    }
  }

  /** The `isDone` test of `WaitUntilClusterIsDeleted`, on a fetched cluster or
      an error: "error" and "deleted" statuses and every fetch error end it. */
  predicate DeletedTerminal(f: Result<Cluster>)
  {
    f.Err? || ToLower(f.value.status) == "error" || ToLower(f.value.status) == "deleted"
  }

  /** What `WaitUntilClusterIsDeleted` returns at a terminal fetch. */
  function DeletedOutcome(f: Result<Cluster>): (r: Option<Error>)
    requires DeletedTerminal(f)
    ensures r.None? <==> (f.Err? && HasStatus(f.error, 404)) || (f.Ok? && ToLower(f.value.status) == "deleted")
    ensures f.Ok? && ToLower(f.value.status) == "error" ==> r == Some(Message(DeletionFailed))
    ensures f.Err? && !HasStatus(f.error, 404) ==> r == Some(f.error)
  {
    match f
    case Err(e) => if HasStatus(e, 404) then None else Some(e)
    case Ok(c) => if ToLower(c.status) == "error" then Some(Message(DeletionFailed)) else None
  }

  /** The wait-until-deleted loop over successive `GetCluster` results. */
  function PollDeleted(fetches: seq<Result<Cluster>>): (p: (Poll<Option<Error>>, nat))
    ensures p.1 <= |fetches|
    ensures p.0.Finished? ==> 1 <= p.1
  {
    if fetches == [] then (StillWaiting, 0)
    else if DeletedTerminal(fetches[0]) then (Finished(DeletedOutcome(fetches[0])), 1)
    else
      var rest := PollDeleted(fetches[1..]);
      (rest.0, rest.1 + 1)
  }

  /** The wait for deletion stops at the first terminal fetch, after exactly
      (its index + 1) fetches, with that fetch's outcome. */
  lemma {:induction false} PollDeletedStopsAtFirstTerminal(fetches: seq<Result<Cluster>>)
    ensures var p := PollDeleted(fetches);
      && (p.0.StillWaiting? <==> forall j :: 0 <= j < |fetches| ==> !DeletedTerminal(fetches[j]))
      && (p.0.StillWaiting? ==> p.1 == |fetches|)
      && (p.0.Finished? ==>
            && DeletedTerminal(fetches[p.1 - 1])
            && p.0.outcome == DeletedOutcome(fetches[p.1 - 1])
            && forall j :: 0 <= j < p.1 - 1 ==> !DeletedTerminal(fetches[j]))
  {
    if fetches != [] && !DeletedTerminal(fetches[0]) {
      var tail := fetches[1..];
      PollDeletedStopsAtFirstTerminal(tail);
      forall j | 1 <= j < |fetches| ensures fetches[j] == tail[j - 1] { }
    }
  }

  /** A status already in lower case is its own lower-cased form. */
  lemma {:induction false} ToLowerOfLowerCase(s: string)
    requires forall i :: 0 <= i < |s| ==> !('A' <= s[i] <= 'Z')
    ensures ToLower(s) == s
  {
    if s != [] {
      ToLowerOfLowerCase(s[1..]);
    }
  }

  /** Deleting a cluster the backend no longer knows yields a cluster that the
      deletion poller accepts as deleted without any fetch. */
  lemma DeleteNotFoundNeedsNoPolling(token: string, e: Error)
    requires HasStatus(e, 404)
    ensures DeleteReply(token, Err(e)).Ok?
    ensures DeletedTerminal(DeleteReply(token, Err(e)))
    ensures DeletedOutcome(DeleteReply(token, Err(e))) == None
  {
    ToLowerOfLowerCase("deleted");
  }

  /** A cluster building, fetched once more as building and then as active,
      is reported active after exactly two fetches. */
  lemma ActivePollingExample(id: string)
    ensures var building := Cluster(id, "k8s", "BUILDING", 3);
            var active := Cluster(id, "k8s", "ACTIVE", 3);
            !IsActiveDone(building) && PollActive([Ok(building), Ok(active)]) == (Finished(Ok(active)), 2)
  {
  }

  // ---------------------------------------------------------------------
  // Template resolution

  /** The cluster-type cache built from a listing: keyed by ID, a later entry
      with the same ID replacing an earlier one. */
  function IndexById(types: seq<ClusterType>): (m: map<int, ClusterType>)
    ensures m.Keys == set t | t in types :: t.id
    ensures forall k :: k in m ==> m[k].id == k && m[k] in types
  {
    if types == [] then map[]
    else
      var last := types[|types| - 1];
      IndexById(types[..|types| - 1])[last.id := last]
  }

  /** A listed type whose ID no later entry repeats is the one cached. */
  lemma {:induction false} IndexByIdKeepsLast(types: seq<ClusterType>, i: nat)
    requires i < |types|
    requires forall j :: i < j < |types| ==> types[j].id != types[i].id
    ensures types[i].id in IndexById(types) && IndexById(types)[types[i].id] == types[i]
  {
    if i < |types| - 1 {
      var init := types[..|types| - 1];
      IndexByIdKeepsLast(init, i);
    }
  }

  /** The IDs of the cached types whose names match `pattern`. */
  function MatchingIds(m: map<int, ClusterType>, pattern: string, globI: (string, string) -> bool): set<int>
  {
    set k | k in m && globI(pattern, m[k].name)
  }

  lemma TwoMembersMeanSizeTwo(s: set<int>, a: int, b: int)
    requires a in s && b in s && a != b
    ensures |s| >= 2
  {
    var rest := s - {a};
    assert b in rest;
    assert s == rest + {a};
  }

  /** `order` lists every key of the set exactly once. */
  ghost predicate Enumerates(keys: set<int>, order: seq<int>)
  {
    && (forall k :: k in keys <==> k in order)
    && (forall i, j :: 0 <= i < j < |order| ==> order[i] != order[j])
  }

  /** The policy of `lookupClusterTypeByName` on a cache: no match is a
      not-found error naming the pattern, exactly one match is that type, two
      or more is an ambiguity error naming the pattern. */
  ghost predicate Resolves(m: map<int, ClusterType>, pattern: string, globI: (string, string) -> bool, r: Result<ClusterType>)
  {
    var ids := MatchingIds(m, pattern, globI);
    || (ids == {} && r == Err(Message(TemplateNotFoundPrefix + pattern)))
    || (|ids| >= 2 && r == Err(MultipleMatchingTemplates(pattern)))
    || (exists k :: k in m && ids == {k} && r == Ok(m[k]))
  }

  /** At most one answer satisfies the policy, so whatever order the cache is
      visited in, the lookup answers the same. */
  lemma ResolvesUnique(m: map<int, ClusterType>, pattern: string, globI: (string, string) -> bool,
                       r1: Result<ClusterType>, r2: Result<ClusterType>)
    requires Resolves(m, pattern, globI, r1) && Resolves(m, pattern, globI, r2)
    ensures r1 == r2
  {
    var ids := MatchingIds(m, pattern, globI);
    if r1.Ok? && r2.Ok? {
      var k1 :| k1 in m && ids == {k1} && r1 == Ok(m[k1]);
      var k2 :| k2 in m && ids == {k2} && r2 == Ok(m[k2]);
      assert k1 in {k2};
    }
  }

  /** The matching loop of `lookupClusterTypeByName`. Go ranges over the cache
      map in an order it does not promise; `order` is that order (every key
      exactly once), and the answer is the policy's whatever it is. */
  method SelectClusterType(m: map<int, ClusterType>, order: seq<int>, pattern: string, globI: (string, string) -> bool)
    returns (r: Result<ClusterType>)
    requires Enumerates(m.Keys, order)
    ensures Resolves(m, pattern, globI, r)
  {
    forall j | 0 <= j < |order| ensures order[j] in m {
      assert order[j] in order;
    }
    var found: Option<ClusterType> := None;
    ghost var at := 0;
    for i := 0 to |order|
      invariant found.None? ==> forall j :: 0 <= j < i ==> !globI(pattern, m[order[j]].name)
      invariant found.Some? ==> at < i && found.value == m[order[at]] && globI(pattern, m[order[at]].name)
      invariant found.Some? ==> forall j :: 0 <= j < i && j != at ==> !globI(pattern, m[order[j]].name)
    {
      var k := order[i];
      if !globI(pattern, m[k].name) {
        continue;
      }
      if found.None? {
        found := Some(m[k]);
        at := i;
      } else {
        TwoMembersMeanSizeTwo(MatchingIds(m, pattern, globI), order[at], k);
        return Err(MultipleMatchingTemplates(pattern));
      }
    }
    var ids := MatchingIds(m, pattern, globI);
    if found.None? {
      forall k | k in m ensures !globI(pattern, m[k].name) {
        var j :| 0 <= j < |order| && order[j] == k;
      }
      assert ids == {};
      return Err(Message(TemplateNotFoundPrefix + pattern));
    }
    forall k | k in ids ensures k == order[at] {
      var j :| 0 <= j < |order| && order[j] == k;
    }
    assert order[at] in m;
    assert order[at] in ids;
    assert ids == {order[at]};
    r := Ok(found.value);
  }

  // ---------------------------------------------------------------------
  // The adapter object

  /** An authenticated libcarina client. */
  datatype Session = Session(token: string)

  /** The request libcarina's `Create` receives. */
  datatype CreateClusterOpts = CreateClusterOpts(name: string, clusterTypeId: int, nodes: int)

  class MakeCOE {
    var client: Option<Session>
    var clusterTypeCache: Option<map<int, ClusterType>>
    /** How many times `Authenticate` and `ListClusterTypes` were called. */
    ghost var authentications: nat
    ghost var typeListings: nat

    constructor ()
      ensures client == None && clusterTypeCache == None
      ensures authentications == 0 && typeListings == 0
    {
      client := None;
      clusterTypeCache := None;
      authentications := 0;
      typeListings := 0;
    }

    /** The effect of `init` on the session: authenticate only when there is
        no session yet, keep the session on success, stay without one on failure. */
    twostate predicate AuthenticatedOnce(authenticate: Result<Session>)
      reads this
    {
      if old(client).Some? then client == old(client) && authentications == old(authentications)
      else authentications == old(authentications) + 1 && client == (if authenticate.Ok? then Some(authenticate.value) else None)
    }

    /** `init`; `authenticate` is what `Account.Authenticate` returns if called. */
    method Init(authenticate: Result<Session>) returns (err: Option<Error>)
      modifies this`client, this`authentications
      ensures AuthenticatedOnce(authenticate)
      ensures err == if old(client).None? && authenticate.Err? then Some(authenticate.error) else None
      ensures err.None? <==> client.Some?
    {
      err := None;
      if client.None? {
        authentications := authentications + 1;
        match authenticate
        case Err(e) =>
          return Some(e);
        case Ok(session) =>
          client := Some(session);
      }
    }

    /** `GetQuotas` answers empty quotas without contacting the backend. */
    method GetQuotas() returns (r: Result<Quotas>)
      ensures r == Ok(Quotas(map[]))
    {
      r := Ok(Quotas(map[]));
    }

    /** `getClusterTypeCache`: the types are listed at most once per instance;
        a failed listing leaves the cache empty and is returned. */
    method GetClusterTypeCache(listing: Result<seq<ClusterType>>) returns (r: Result<map<int, ClusterType>>)
      requires client.Some?
      modifies this`clusterTypeCache, this`typeListings
      ensures old(clusterTypeCache).Some? ==>
                r == Ok(old(clusterTypeCache).value) && clusterTypeCache == old(clusterTypeCache) && typeListings == old(typeListings)
      ensures old(clusterTypeCache).None? ==> typeListings == old(typeListings) + 1
      ensures old(clusterTypeCache).None? && listing.Ok? ==>
                clusterTypeCache == Some(IndexById(listing.value)) && r == Ok(IndexById(listing.value))
      ensures old(clusterTypeCache).None? && listing.Err? ==>
                clusterTypeCache == None && r == Err(HandleLibcarinaError(Wrapped(ListTypesFailed, listing.error)))
    {
      if clusterTypeCache.None? {
        typeListings := typeListings + 1;
        if listing.Err? {
          return Err(HandleLibcarinaError(Wrapped(ListTypesFailed, listing.error)));
        }
        var types := listing.value;
        var cache: map<int, ClusterType> := map[];
        for i := 0 to |types|
          invariant cache == IndexById(types[..i])
        {
          assert types[..i + 1][..i] == types[..i];
          cache := cache[types[i].id := types[i]];
        }
        assert types[..|types|] == types;
        clusterTypeCache := Some(cache);
      }
      r := Ok(clusterTypeCache.value);
    }

    /** `lookupClusterTypeByName`: resolve `pattern` against the cached types
        with the case-insensitive matcher `globI`; `arrange` is the order in
        which the Go runtime ranges over a map. */
    method LookupClusterTypeByName(pattern: string, listing: Result<seq<ClusterType>>, globI: (string, string) -> bool,
                                   arrange: map<int, ClusterType> -> seq<int>)
      returns (r: Result<ClusterType>)
      requires client.Some?
      requires forall c: map<int, ClusterType> :: Enumerates(c.Keys, arrange(c))
      modifies this`clusterTypeCache, this`typeListings
      ensures old(clusterTypeCache).Some? ==> clusterTypeCache == old(clusterTypeCache) && typeListings == old(typeListings)
      ensures old(clusterTypeCache).None? ==> typeListings == old(typeListings) + 1
      ensures old(clusterTypeCache).None? && listing.Ok? ==> clusterTypeCache == Some(IndexById(listing.value))
      ensures old(clusterTypeCache).None? && listing.Err? ==> clusterTypeCache == None
      ensures clusterTypeCache.Some? ==> Resolves(clusterTypeCache.value, pattern, globI, r)
      ensures clusterTypeCache.None? ==> listing.Err? && r == Err(HandleLibcarinaError(Wrapped(ListTypesFailed, listing.error)))
    {
      var cache := GetClusterTypeCache(listing);
      if cache.Err? {
        return Err(cache.error);
      }
      r := SelectClusterType(cache.value, arrange(cache.value), pattern, globI);
    }

    /** `CreateCluster`: an empty template fails before anything else; then the
        session, the template and the backend's `Create` answer in turn. */
    method CreateCluster(name: string, template: string, nodes: int,
                         authenticate: Result<Session>, listing: Result<seq<ClusterType>>,
                         create: CreateClusterOpts -> Result<Cluster>, globI: (string, string) -> bool,
                         arrange: map<int, ClusterType> -> seq<int>)
      returns (r: Result<Cluster>)
      requires forall c: map<int, ClusterType> :: Enumerates(c.Keys, arrange(c))
      modifies this
      ensures template == "" ==> r == Err(Message(TemplateRequired)) && unchanged(this)
      ensures template != "" ==> AuthenticatedOnce(authenticate)
      ensures template != "" && client.None? ==>
                r == Err(authenticate.error) && unchanged(this`clusterTypeCache, this`typeListings)
      ensures template != "" && client.Some? ==>
                && (old(clusterTypeCache).Some? ==> clusterTypeCache == old(clusterTypeCache) && typeListings == old(typeListings))
                && (old(clusterTypeCache).None? ==> typeListings == old(typeListings) + 1)
                && (old(clusterTypeCache).None? && listing.Ok? ==> clusterTypeCache == Some(IndexById(listing.value)))
                && (old(clusterTypeCache).None? && listing.Err? ==> clusterTypeCache == None)
      ensures template != "" && client.Some? && clusterTypeCache.Some? ==>
                var m := clusterTypeCache.value;
                var ids := MatchingIds(m, template, globI);
                && (ids == {} ==> r == Err(Message(TemplateNotFoundPrefix + template)))
                && (|ids| >= 2 ==> r == Err(MultipleMatchingTemplates(template)))
                && (forall k :: k in m && ids == {k} ==> r == Checked(create(CreateClusterOpts(name, m[k].id, nodes)), CreateFailed))
      ensures template != "" && client.Some? && clusterTypeCache.None? ==>
                listing.Err? && r == Err(HandleLibcarinaError(Wrapped(ListTypesFailed, listing.error)))
    {
      if template == "" {
        return Err(Message(TemplateRequired));
      }
      var err := Init(authenticate);
      if err.Some? {
        return Err(err.value);
      }
      var clusterType := LookupClusterTypeByName(template, listing, globI, arrange);
      if clusterType.Err? {
        return Err(clusterType.error);
      }
      var t := clusterType.value;
      r := Checked(create(CreateClusterOpts(name, t.id, nodes)), CreateFailed);
    }

    /** `GetCluster`; `get` is libcarina's `Get`. */
    method GetCluster(token: string, authenticate: Result<Session>, get: string -> Result<Cluster>)
      returns (r: Result<Cluster>)
      modifies this`client, this`authentications
      ensures AuthenticatedOnce(authenticate)
      ensures r == if client.None? then Err(authenticate.error) else Checked(get(token), GetFailed(token))
    {
      var err := Init(authenticate);
      if err.Some? {
        return Err(err.value);
      }
      r := Checked(get(token), GetFailed(token));
    }

    /** `DeleteCluster`; `delete` is libcarina's `Delete`. */
    method DeleteCluster(token: string, authenticate: Result<Session>, delete: string -> Result<Cluster>)
      returns (r: Result<Cluster>)
      modifies this`client, this`authentications
      ensures AuthenticatedOnce(authenticate)
      ensures r == if client.None? then Err(authenticate.error) else DeleteReply(token, delete(token))
    {
      var err := Init(authenticate);
      if err.Some? {
        return Err(err.value);
      }
      r := DeleteReply(token, delete(token));
    }

    /** `GrowCluster` is not supported: it fails without authenticating. */
    method GrowCluster(token: string, nodes: int) returns (r: Result<Cluster>)
      ensures r == Err(Message(GrowUnsupported))
    {
      r := Err(Message(GrowUnsupported));
    }

    /** `RebuildCluster` is not supported: it fails without authenticating. */
    method RebuildCluster(token: string) returns (r: Result<Cluster>)
      ensures r == Err(Message(RebuildUnsupported))
    {
      r := Err(Message(RebuildUnsupported));
    }

    /** `SetAutoScale` is not supported: it fails without authenticating. */
    method SetAutoScale(token: string, value: bool) returns (r: Result<Cluster>)
      ensures r == Err(Message(AutoScaleUnsupported))
    {
      r := Err(Message(AutoScaleUnsupported));
    }

    /** `WaitUntilClusterIsActive`: `get(id, n)` is what the `n`-th call of
        `GetCluster(id)` returns, and `limit` is how many calls are observed.
        The wait follows a successful call, so the session exists and the
        fetches do not authenticate again. */
    method WaitUntilClusterIsActive(cluster: Cluster, get: (string, int) -> Result<Cluster>, limit: nat)
      returns (r: Poll<Result<Cluster>>, used: nat)
      requires client.Some?
      ensures IsActiveDone(cluster) ==> r == Finished(Ok(cluster)) && used == 0
      ensures !IsActiveDone(cluster) ==> (r, used) == PollActive(Fetches(get, cluster.id, limit))
    {
      if IsActiveDone(cluster) {
        return Finished(Ok(cluster)), 0;
      }
      ghost var fetches := Fetches(get, cluster.id, limit);
      used := 0;
      while used < limit
        invariant used <= limit
        invariant PollActive(fetches) == (PollActive(fetches[used..]).0, PollActive(fetches[used..]).1 + used)
      {
        var fetched := get(cluster.id, used);
        assert fetches[used..][0] == fetched;
        assert fetches[used..][1..] == fetches[used + 1..];
        used := used + 1;
        if fetched.Err? {
          return Finished(fetched), used;
        }
        if IsActiveDone(fetched.value) {
          return Finished(fetched), used;
        }
      }
      r := StillWaiting;
    }

    /** `WaitUntilClusterIsDeleted`: as above; `None` is Go's nil error. */
    method WaitUntilClusterIsDeleted(cluster: Cluster, get: (string, int) -> Result<Cluster>, limit: nat)
      returns (r: Poll<Option<Error>>, used: nat)
      requires client.Some?
      ensures DeletedTerminal(Ok(cluster)) ==> r == Finished(DeletedOutcome(Ok(cluster))) && used == 0
      ensures !DeletedTerminal(Ok(cluster)) ==> (r, used) == PollDeleted(Fetches(get, cluster.id, limit))
    {
      var status := ToLower(cluster.status);
      if status == "error" {
        return Finished(Some(Message(DeletionFailed))), 0;
      }
      if status == "deleted" {
        return Finished(None), 0;
      }
      ghost var fetches := Fetches(get, cluster.id, limit);
      used := 0;
      while used < limit
        invariant used <= limit
        invariant PollDeleted(fetches) == (PollDeleted(fetches[used..]).0, PollDeleted(fetches[used..]).1 + used)
      {
        var fetched := get(cluster.id, used);
        assert fetches[used..][0] == fetched;
        assert fetches[used..][1..] == fetches[used + 1..];
        used := used + 1;
        match fetched {
          case Err(e) =>
            if HasStatus(e, 404) {
              return Finished(None), used;
            }
            return Finished(Some(e)), used;
          case Ok(c) =>
            var s := ToLower(c.status);
            if s == "error" {
              return Finished(Some(Message(DeletionFailed))), used;
            }
            if s == "deleted" {
              return Finished(None), used;
            }
        }
      }
      r := StillWaiting;
    }
  }
}
