/** Values shared by the make-coe backend adapter and the client orchestrator:
    optional values, results, the error values the core produces or inspects,
    and the backend-agnostic cluster and cluster-type records. */
module Common {

  datatype Option<+T> = None | Some(value: T)

  /** A Go `(value, error)` pair where exactly one side is meaningful. */
  datatype Result<+T> = Ok(value: T) | Err(error: Error)

  /** The errors of the core. `Wrapped` is what `errors.Wrap` builds (a context
      message around a cause); `Message` is `errors.New`/`fmt.Errorf`; `External`
      stands for an error produced by a collaborator that is not modelled
      (authentication, transport, file system). */
  datatype Error =
    | HTTPErr(statusCode: int)
    | Wrapped(message: string, cause: Error)
    | Message(text: string)
    | MultipleMatchingTemplates(templatePattern: string)
    | CacheUnavailable(reason: Error)
    | ClientError(inner: Error)
    | External(code: nat)

  /** `errors.Cause`: strip every `errors.Wrap` layer and return the innermost error. */
  function Cause(e: Error): (c: Error)
    ensures !c.Wrapped?
    ensures !e.Wrapped? ==> c == e
  {
    match e
    case Wrapped(_, inner) => Cause(inner)
    case _ => e
  }

  /** `e` wrapped in turn with each of `contexts`, innermost first. */
  function WrapAll(contexts: seq<string>, e: Error): Error
  {
    if contexts == [] then e else Wrapped(contexts[|contexts| - 1], WrapAll(contexts[..|contexts| - 1], e))
  }

  /** Wrapping never hides the root cause, however many layers are added. */
  lemma {:induction false} CauseThroughWraps(contexts: seq<string>, e: Error)
    ensures Cause(WrapAll(contexts, e)) == Cause(e)
    ensures Cause(Cause(e)) == Cause(e)
  {
    if contexts != [] {
      CauseThroughWraps(contexts[..|contexts| - 1], e);
    }
  }

  /** True when the root cause of `e` is an HTTP error with the given status. */
  predicate HasStatus(e: Error, status: int)
  {
    Cause(e) == HTTPErr(status)
  }

  /** The backend-agnostic view of a cluster. */
  datatype Cluster = Cluster(id: string, name: string, status: string, nodes: int)

  /** The account's quotas, as limit name to value. */
  datatype Quotas = Quotas(limits: map<string, int>)

  /** A make-coe cluster type (template). */
  datatype ClusterType = ClusterType(id: int, name: string, coe: string, hostType: string)

  function LowerChar(c: char): char
  {
    if 'A' <= c <= 'Z' then (c as int + 32) as char else c
  }

  /** `strings.ToLower`, restricted to ASCII letters. */
  function ToLower(s: string): (r: string)
    ensures |r| == |s|
  {
    if s == [] then [] else [LowerChar(s[0])] + ToLower(s[1..])
  }

  /** Lower-casing a string twice changes nothing more than doing it once. */
  lemma {:induction false} ToLowerIdempotent(s: string)
    ensures ToLower(ToLower(s)) == ToLower(s)
  {
    if s != [] {
      ToLowerIdempotent(s[1..]);
      assert ToLower(s)[1..] == ToLower(s[1..]);
    }
  }
}
