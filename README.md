# Carina client core, modelled in Dafny

This project models the decision logic of the Carina command-line client:

- **make-coe backend adapter** (`MakeCoe`, make_coe.dfy). It covers:
  - lazy authentication;
  - classification of libcarina HTTP errors, where a 406 becomes the "update your client" error;
  - turning a 404 on delete into a cluster whose status is "deleted";
  - the two polling loops that wait for a cluster to become active or to be deleted;
  - the per-instance cluster-type cache;
  - template resolution by case-insensitive glob, which must not depend on map iteration order;
  - the unsupported operations, which fail at once.
- **Client orchestrator** (`Client`, client.dfy). It covers:
  - cache initialisation and its fallback to an empty in-memory cache;
  - the hydrate → call → optional wait → save sequence of every service operation;
  - the order-preserving template name filter;
  - credential download;
  - credential deletion with its safety checks.
- **Shared values** (`Common`, common.dfy). These are:
  - errors and `errors.Cause`;
  - results and options;
  - clusters and cluster types;
  - ASCII lower-casing.

Collaborators are parameters that say what they return if called:
- the libcarina calls (`Authenticate`, `ListClusterTypes`, `Create`, `Get`, `Delete`);
- the cluster service behind an account;
- the glob matchers;
- `filepath.Clean`/`Join`;
- the credentials-path builder;
- the failure of each file-system call.

The model records when it uses them:
- ghost counters on `MakeCOE` count authentications and cluster-type listings;
- a ghost `trace` on `Client` lists every hydrate, service call, wait, credential removal and save.

Other pieces of state are modelled as follows:
- The file system is a map from path to entry (directory or file contents).
- The cache is the log of the accounts saved into it.
- A polling loop calls a fetch oracle: `get(id, n)` is what the `n`-th `GetCluster(id)` call returns. Only the first `limit` calls are observed, and `StillWaiting` means the loop would fetch again.
- Go's map iteration order is an explicit enumeration (`order`, `arrange`) that lists every key exactly once. Every property is proved for all such orders.

## Model

| member | source | states |
|---|---|---|
| Common.Cause | make-coe/make-coe.go:35-36 | The root cause is never a wrap layer, and an error that is not a wrap is its own cause. |
| Common.CauseThroughWraps | make-coe/make-coe.go:185-186 | Any number of context layers around an error leave its root cause unchanged, and the cause of a cause is itself. |
| Common.ToLower | make-coe/make-coe.go:235 | Lower-casing a status keeps its length. |
| Common.ToLowerIdempotent | make-coe/make-coe.go:235 | Lower-casing twice gives the same status as lower-casing once. |
| MakeCoe.HandleHTTPError | make-coe/make-coe.go:22-33 | The result carries the out-of-date advice exactly when the status is 406. Any other status comes back as the bare HTTP error. The root cause is always that HTTP error. |
| MakeCoe.HandleLibcarinaError | make-coe/make-coe.go:35-41 | The root cause is preserved. For an HTTP root cause, the advice appears iff the status is 406, and any other status yields the bare HTTP cause. A non-HTTP error is returned unchanged. |
| MakeCoe.Checked | make-coe/make-coe.go:166-170 | A libcarina call succeeds iff its result does, and a success passes through untouched. A failure keeps its root cause, and for an HTTP cause it carries the advice iff the status is 406. |
| MakeCoe.DeleteReply | make-coe/make-coe.go:180-200 | A successful delete passes through. A 404 root cause becomes a success holding a cluster with status "deleted". Any other failure keeps its root cause. When that root cause is an HTTP error, the advice appears iff the status is 406. |
| MakeCoe.Fetches | make-coe/make-coe.go:244-245 | The observed fetches are exactly the successive `GetCluster` calls for the one given ID, in call order. |
| MakeCoe.PollActive | make-coe/make-coe.go:243-256 | The wait for "active" never uses more fetches than exist, and it finishes only after at least one fetch. |
| MakeCoe.PollActiveStopsAtFirstTerminal | make-coe/make-coe.go:243-256 | The wait stops at the first fetch that is an error or has status active/error (case-insensitive). It returns that fetch after exactly its index + 1 fetches. It keeps waiting iff no fetch is terminal. |
| MakeCoe.DeletedOutcome | make-coe/make-coe.go:261-290 | At a terminal point of the deletion wait, a 404 or status "deleted" is success, status "error" is the deletion-failed error, and any other fetch error is propagated. |
| MakeCoe.PollDeleted | make-coe/make-coe.go:275-295 | The wait for deletion never uses more fetches than exist, and it finishes only after at least one fetch. |
| MakeCoe.PollDeletedStopsAtFirstTerminal | make-coe/make-coe.go:275-295 | The deletion wait stops at the first terminal fetch, after exactly its index + 1 fetches, with that fetch's outcome. It keeps waiting iff no fetch is terminal. |
| MakeCoe.ToLowerOfLowerCase | make-coe/make-coe.go:189-190 | A status with no upper-case letters, such as the synthesised "deleted", is unchanged by lower-casing. |
| MakeCoe.DeleteNotFoundNeedsNoPolling | make-coe/make-coe.go:183-192 | Deleting a cluster that yields a 404 gives a cluster that the deletion wait accepts as deleted without fetching. |
| MakeCoe.ActivePollingExample | make-coe/make-coe.go:233-256 | A building cluster fetched as "BUILDING" and then "ACTIVE" is reported active after exactly two fetches. |
| MakeCoe.IndexById | make-coe/make-coe.go:308-321 | The cluster-type cache is keyed by exactly the listed IDs, and each key maps to a listed type with that ID. |
| MakeCoe.IndexByIdKeepsLast | make-coe/make-coe.go:316-318 | A listed type whose ID no later entry repeats is the one cached under its ID. |
| MakeCoe.ResolvesUnique | make-coe/make-coe.go:330-348 | At most one answer meets the resolution policy, so the lookup's answer does not depend on the iteration order. |
| MakeCoe.SelectClusterType | make-coe/make-coe.go:330-348 | For every iteration order: no match gives "Could not find template named <pattern>". Two or more matches give the ambiguity error carrying the pattern. Exactly one match gives that type. |
| MakeCoe.MakeCOE.Init | make-coe/make-coe.go:43-52 | Authenticates only when there is no session. A failure is returned and leaves no session, a success is memoised, and an existing session is kept without authenticating. |
| MakeCoe.MakeCOE.GetQuotas | make-coe/make-coe.go:55-57 | Returns empty quotas and no error. |
| MakeCoe.MakeCOE.GetClusterTypeCache | make-coe/make-coe.go:308-322 | Lists cluster types only when the cache is empty, so a listing succeeds at most once per instance; a failed listing is retried on the next call. On success the cache is the listing keyed by ID. On failure the cache stays empty and the classified error is returned. |
| MakeCoe.MakeCOE.LookupClusterTypeByName | make-coe/make-coe.go:324-349 | With an empty cache, a failed listing is returned as the classified error and the cache stays empty, so the next call lists again. Otherwise the answer meets the resolution policy against the cache. |
| MakeCoe.MakeCOE.CreateCluster | make-coe/make-coe.go:60-91 | An empty template fails before authentication and changes nothing. An authentication failure is returned. Once authenticated, an existing cache is kept without listing, and an empty one is listed once and becomes the listing keyed by ID. A failed listing leaves the cache empty and its classified error is the result. Against that cache, zero or several matches give their errors. A unique match calls `Create` with that type's ID, and a failure there is wrapped and classified. |
| MakeCoe.MakeCOE.GetCluster | make-coe/make-coe.go:159-173 | Authenticates as needed, then returns `Get`'s result, with a failure wrapped and classified. |
| MakeCoe.MakeCOE.DeleteCluster | make-coe/make-coe.go:176-201 | Authenticates as needed, then returns the delete reply, where a 404 becomes a "deleted" cluster. |
| MakeCoe.MakeCOE.GrowCluster | make-coe/make-coe.go:204-206 | Always fails with the "use resize" error, without authenticating. |
| MakeCoe.MakeCOE.RebuildCluster | make-coe/make-coe.go:154-156 | Always fails with the "not supported yet" error, without authenticating. |
| MakeCoe.MakeCOE.SetAutoScale | make-coe/make-coe.go:228-230 | Always fails with the "does not support autoscaling" error. |
| MakeCoe.MakeCOE.WaitUntilClusterIsActive | make-coe/make-coe.go:233-257 | Called with a session in place, as every caller does after a successful adapter call. A cluster already active or in error is returned with zero fetches. Otherwise the loop's outcome and fetch count are those of `PollActive` over the fetches of the original cluster's ID. |
| MakeCoe.MakeCOE.WaitUntilClusterIsDeleted | make-coe/make-coe.go:260-296 | Called with a session in place. A cluster already "error" or "deleted" gives its outcome with zero fetches. Otherwise the outcome and fetch count are those of `PollDeleted` over the fetches of the original cluster's ID. |
| Client.WrapClientError | client/client.go:39-45 | A nil error stays nil, and any other error becomes a client error around it. |
| Client.RemoveTree | client/client.go:347 | Removing a directory drops exactly the paths at or below it and keeps every other entry unchanged. |
| Client.MakeDir | client/client.go:140 | Making a directory adds it and keeps every existing entry. |
| Client.CredentialRemoval | client/client.go:323-353 | A path-builder error is returned. A cleaned path of "", "." or "/" is refused. An absent path is a success that removes nothing. A directory without `ca.pem` is refused. When both exist, a successful removal drops exactly the paths at or below it, and a failed removal gives "Unable to delete the credentials on disk" around its error and changes nothing. The disk changes in no other case. Nothing is ever added or altered. |
| Client.WriteAll | client/client.go:146-151 | Writing bundle files keeps every existing path, creates each file's joined path, and the last file written holds its own contents. |
| Client.Targets | client/client.go:146-147 | The paths written are exactly the bundle files' joined paths. |
| Client.WriteAllFootprint | client/client.go:146-151 | Writing a bundle adds exactly the joined file paths and leaves every other path as it was. |
| Client.WriteAllContents | client/client.go:146-151 | When no two files join to the same path, each file ends up on disk with its own contents. |
| Client.FirstFailedWrite | client/client.go:146-151 | Every write before the first failing one succeeds, and the write at that position fails. |
| Client.WriteBundle | client/client.go:146-151 | The loop writes the files in order up to the first failed write, which it returns, or writes all of them and returns no error. |
| Client.FilterByName | client/client.go:204-216 | The filter keeps exactly the templates whose names match, and never more than there were. |
| Client.MatchingPositions | client/client.go:206-211 | The listed positions are valid indices into the templates. |
| Client.FilterSelectsPositions | client/client.go:206-211 | The filtered list is the templates at the matching positions, in turn. |
| Client.MatchingPositionsIncrease | client/client.go:206-211 | The matching positions strictly increase, so the filter preserves the original order. |
| Client.MatchingPositionsExact | client/client.go:206-211 | A position is kept exactly when the template there matches. |
| Client.FilterTemplates | client/client.go:206-215 | The append loop computes the filter. |
| Client.SetUpCache | client/client.go:47-84 | A disabled cache is empty and in memory, and sets no error. A cache set up with no failure uses the cache file. Any failure (credentials dir, mkdir, file name, load) gives an empty in-memory cache and a `CacheUnavailable` error around that step's own error (mkdir's wrapped with "Unable to create cache directory"). The directory is made iff it was located and mkdir succeeded. |
| Client.Steps | client/client.go:92-100 | Every operation starts by hydrating the account and invoking the service, and always ends by saving the account. |
| Client.AfterOptionalWait | client/client.go:111-117 | The wait's reply replaces the call's only when a wait was asked for and the call succeeded. Otherwise the call's reply is returned. The error is that reply's error passed through `wrapClientError`. |
| Client.Client.constructor | client/client.go:33-37 | A new client's cache and error are those of cache initialisation, with an empty cache log and trace. |
| Client.Client.InitCache | client/client.go:47-84 | Installs a fresh cache as the setup decides, sets `Error` only on failure, and makes the credentials directory only when it was located and mkdir succeeded. |
| Client.Client.BuildContainerService | client/client.go:86-89 | Hydrates the account from the cache, as recorded in the trace. |
| Client.Client.SaveOnExit | client/client.go:93 | Appends the account to the cache log and records the save. |
| Client.Client.CallThenWait | client/client.go:104-118 | Hydrate, call, wait only if asked and the call succeeded, then save. The reply is `AfterOptionalWait`'s. |
| Client.Client.GetQuotas | client/client.go:92-101 | Returns the service's quotas with the error wrapped, and saves the account. |
| Client.Client.CreateCluster | client/client.go:104-118 | Create, wait only on request after success, save on every path. |
| Client.Client.ListClusters | client/client.go:185-194 | Returns the service's clusters with the error wrapped, and saves the account. |
| Client.Client.ListClusterTemplates | client/client.go:197-219 | Returns the list untouched when there was an error or no filter. Otherwise it returns the filtered subsequence with no error. Saves the account in both cases. |
| Client.Client.GetCluster | client/client.go:222-236 | Get, wait only on request after success, save on every path. |
| Client.Client.GrowCluster | client/client.go:239-253 | Grow, wait only on request after success, save on every path. |
| Client.Client.ResizeCluster | client/client.go:256-270 | Resize, wait only on request after success, save on every path. |
| Client.Client.RebuildCluster | client/client.go:273-287 | Rebuild, wait only on request after success, save on every path. |
| Client.Client.SetAutoScale | client/client.go:290-299 | Returns the service's reply with the error wrapped, and saves the account. |
| Client.Client.DeleteClusterCredentials | client/client.go:323-353 | The error returned and the disk left behind are exactly those `CredentialRemoval` describes. |
| Client.Client.DeleteCluster | client/client.go:302-320 | The deletion wait runs only on request after a successful delete. Credentials at the default location are removed only when both succeeded, otherwise the disk is untouched. The error is wrapped, and the account is saved on every path. |
| Client.Client.DownloadClusterCredentials | client/client.go:121-155 | Each failure is reported: fetching the bundle, building the path, or creating the directory. Those failures leave the disk untouched and return an empty path. Otherwise the directory is made unless it is "." and the files are written in order up to the first failed write. The path is returned only when every write succeeded. The account is saved on every path. |

## Left out

- Logging, `time.Sleep` and the 5-second polling interval are not modelled. The polling loops are unbounded in Go. Here they observe only the first `limit` fetches and end in `StillWaiting` when those run out. The model adds no timeout.
- The fetches a polling loop consumes are the full results of the adapter's own `GetCluster`, that is, the classified `Get` reply. The wait methods require an existing session, as every caller in client/client.go has one after its successful adapter call. So the fetches never authenticate and the adapter's state is unchanged.
- Common.ToLower folds only the ASCII letters A–Z. `strings.ToLower` also folds other Unicode letters.
- Glob matching (the go-glob library) is a function parameter: a case-insensitive one for template lookup and a case-sensitive one for the template filter.
- The libcarina calls, the account's cluster service and authentication are parameters that hold what each call returns. Their internals are not part of this model.
- The adapter's `ListClusters`, `ListClusterTemplates`, `GetClusterCredentials` and `ResizeCluster` are not modelled. They follow the authenticate-then-classify pattern that `MakeCoe.MakeCOE.GetCluster` models.
- `GetSourceCommand` and its shell text are not modelled.
- `errors.Cause` stops at the first error that does not unwrap. The client's own wrappers (`ClientError`, `CacheUnavailable`) are treated as not unwrapping, because the code that defines them is not part of this model.
- The cache's persistence, loading and `apply` are not modelled. `buildClusterCredentialsPath` and the cache-file-name helpers live in files that are not part of this model. They are parameters, and only the resulting calls are recorded.
- The file system is a map from path to entry. `os.Stat` is modelled only as "the path is present"; another stat failure, such as a permission error, is not distinguished. A failing `MkdirAll`, `WriteFile` or `RemoveAll` is modelled as changing nothing, though the real call may leave partial work behind. `MkdirAll` does not create missing parent entries.
- Client.Client.DownloadClusterCredentials: Go ranges over the bundle in an order it does not promise. The order is the parameter `order`, which must list every bundle file exactly once, and the contract holds for each such order.
- `buildContainerService` never returns an error in the source, so the error branch after it in each operation is not modelled.
- Go's `nil` cluster is `None`, and a nil slice is the empty sequence.
