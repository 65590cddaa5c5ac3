/**
 * The SDK's error values (errors.go): the sentinel errors, the APIError
 * record with its message text, and the classification predicates.
 *
 * A Go `error` is modelled by `Error`; a nil error by `None`.  `Wrapped` is an
 * error made by fmt.Errorf with the %w verb: its text is the prefix followed by
 * the inner error's text, and errors.Is looks through it.  A type assertion
 * `err.(*APIError)` does NOT look through it.
 */
module Errors {
  import opened Wrappers
  import opened Text

  datatype Sentinel =
    | MissingURL | MissingAPIKey
    | ProjectNotFound | TraceNotFound | SpanNotFound
    | DatasetNotFound | ExperimentNotFound | PromptNotFound
    | InvalidInput

  /** The texts given to errors.New for each sentinel. */
  function SentinelText(k: Sentinel): string {
    match k
    case MissingURL => "phoenix: missing API URL"
    case MissingAPIKey => "phoenix: missing API key"
    case ProjectNotFound => "phoenix: project not found"
    case TraceNotFound => "phoenix: trace not found"
    case SpanNotFound => "phoenix: span not found"
    case DatasetNotFound => "phoenix: dataset not found"
    case ExperimentNotFound => "phoenix: experiment not found"
    case PromptNotFound => "phoenix: prompt not found"
    case InvalidInput => "phoenix: invalid input"
  }

  const ApiErrorPrefix := "phoenix: API error"

  datatype APIError = APIError(statusCode: int, message: string, details: string) {

    /**
     * APIError.Error(): the message in parentheses followed by the details when
     * there are details, otherwise the message after a colon.  The two
     * characters after the common prefix (": " or " (") tell the layouts apart;
     * together with the message and details slices they fix the whole text.
     */
    function Text(): (r: string)
      ensures HasPrefix(r, ApiErrorPrefix) && |r| >= |ApiErrorPrefix| + 2 + |message|
      ensures (details == "") <==> (r[|ApiErrorPrefix|] == ':')
      ensures r[|ApiErrorPrefix| + 2..|ApiErrorPrefix| + 2 + |message|] == message
      ensures details == "" ==> |r| == |ApiErrorPrefix| + 2 + |message|
      ensures details != "" ==> HasSuffix(r, details)
      ensures details == "" ==> r[|ApiErrorPrefix|..|ApiErrorPrefix| + 2] == ": "
      ensures details != "" ==> (r[|ApiErrorPrefix|..|ApiErrorPrefix| + 2] == " (" &&
        |r| == |ApiErrorPrefix| + 5 + |message| + |details| &&
        r[|ApiErrorPrefix| + 2 + |message|..|ApiErrorPrefix| + 5 + |message|] == "): ")
    {
      if details != "" then
        ConcatSlices5(ApiErrorPrefix, " (", message, "): ", details);
        ApiErrorPrefix + " (" + message + "): " + details
      else
        ConcatSlices3(ApiErrorPrefix, ": ", message);
        ApiErrorPrefix + ": " + message
    }
  }

  /** Each piece of a three-piece concatenation is found back by slicing. */
  lemma ConcatSlices3(a: string, b: string, c: string)
    ensures var s := a + b + c;
      s[..|a|] == a && s[|a|..|a| + |b|] == b && s[|a| + |b|..] == c
  {
  }

  /** Each piece of a five-piece concatenation is found back by slicing. */
  lemma ConcatSlices5(a: string, b: string, c: string, d: string, e: string)
    ensures var s := a + b + c + d + e; var i, j, k := |a| + |b|, |a| + |b| + |c|, |a| + |b| + |c| + |d|;
      s[..|a|] == a && s[|a|..i] == b && s[i..j] == c && s[j..k] == d && s[k..] == e
  {
    ConcatSlices3(a + b, c, d);
    ConcatSlices3(a, b, c + d + e);
    assert a + b + c + d + e == (a + b + c + d) + e;
  }

  /** The APIError the SDK returns for a response of an unexpected type. */
  const UnexpectedResponse := APIError(0, "unexpected response type", "")

  datatype Error =
    | Sentinel(kind: Sentinel)
    | Api(api: APIError)
    | Wrapped(prefix: string, inner: Error)
    | Llmops(name: string)   // a sentinel of the llmops interface package, by its Go name
    | Opaque(text: string)   // any other error, e.g. from the transport

  function ErrorText(e: Error): string {
    match e
    case Sentinel(k) => SentinelText(k)
    case Api(a) => a.Text()
    case Wrapped(p, inner) => p + ErrorText(inner)
    case Llmops(n) => n
    case Opaque(t) => t
  }

  /** errors.Is(e, target) for a sentinel target: the sentinel occurs in e's wrap chain. */
  predicate Is(e: Error, target: Sentinel) {
    match e
    case Sentinel(k) => k == target
    case Wrapped(_, inner) => Is(inner, target)
    case _ => false
  }

  const NotFoundSentinels: set<Sentinel> :=
    {ProjectNotFound, TraceNotFound, SpanNotFound, DatasetNotFound, ExperimentNotFound, PromptNotFound}

  predicate IsNotFound(err: Option<Error>) {
    match err
    case None => false
    case Some(Api(a)) => a.statusCode == 404
    case Some(e) =>
      Is(e, ProjectNotFound) || Is(e, TraceNotFound) || Is(e, SpanNotFound) ||
      Is(e, DatasetNotFound) || Is(e, ExperimentNotFound) || Is(e, PromptNotFound)
  }

  predicate IsUnauthorized(err: Option<Error>) {
    match err
    case Some(Api(a)) => a.statusCode == 401
    case _ => false
  }

  predicate IsForbidden(err: Option<Error>) {
    match err
    case Some(Api(a)) => a.statusCode == 403
    case _ => false
  }

  predicate IsRateLimited(err: Option<Error>) {
    match err
    case Some(Api(a)) => a.statusCode == 429
    case _ => false
  }

  /** A nil error is classified as nothing. */
  lemma NilIsUnclassified()
    ensures !IsNotFound(None) && !IsUnauthorized(None) && !IsForbidden(None) && !IsRateLimited(None)
  {
  }

  /** For an APIError only the status code decides, each predicate on its own code. */
  lemma ApiErrorByStatus(a: APIError)
    ensures IsNotFound(Some(Api(a))) <==> a.statusCode == 404
    ensures IsUnauthorized(Some(Api(a))) <==> a.statusCode == 401
    ensures IsForbidden(Some(Api(a))) <==> a.statusCode == 403
    ensures IsRateLimited(Some(Api(a))) <==> a.statusCode == 429
  {
  }

  /** Whatever the error, at most one of the four predicates holds. */
  lemma AtMostOneClass(err: Option<Error>)
    ensures (if IsNotFound(err) then 1 else 0) + (if IsUnauthorized(err) then 1 else 0)
          + (if IsForbidden(err) then 1 else 0) + (if IsRateLimited(err) then 1 else 0) <= 1
  {
  }

  /** errors.Is sees a sentinel through one level of %w wrapping, in both directions. */
  lemma {:induction false} IsThroughWrapping(e: Error, k: Sentinel)
    requires e.Wrapped?
    ensures Is(e, k) <==> Is(e.inner, k)
  {
  }

  /** Which sentinel chains count as "not found": exactly the six not-found sentinels. */
  lemma {:induction false} NotFoundSentinelChains(e: Error)
    requires !e.Api?
    ensures IsNotFound(Some(e)) <==> exists k :: k in NotFoundSentinels && Is(e, k)
    ensures !IsUnauthorized(Some(e)) && !IsForbidden(Some(e)) && !IsRateLimited(Some(e))
  {
    if IsNotFound(Some(e)) {
      if Is(e, ProjectNotFound) { assert ProjectNotFound in NotFoundSentinels; }
      else if Is(e, TraceNotFound) { assert TraceNotFound in NotFoundSentinels; }
      else if Is(e, SpanNotFound) { assert SpanNotFound in NotFoundSentinels; }
      else if Is(e, DatasetNotFound) { assert DatasetNotFound in NotFoundSentinels; }
      else if Is(e, ExperimentNotFound) { assert ExperimentNotFound in NotFoundSentinels; }
      else { assert PromptNotFound in NotFoundSentinels; }
    }
  }

  /** The configuration and input sentinels are never "not found". */
  lemma OtherSentinelsAreNotNotFound()
    ensures !IsNotFound(Some(Sentinel(MissingURL)))
    ensures !IsNotFound(Some(Sentinel(MissingAPIKey)))
    ensures !IsNotFound(Some(Sentinel(InvalidInput)))
  {
  }

  /**
   * A 404 APIError that has been wrapped with %w is NOT "not found": the type
   * assertion in IsNotFound only matches an unwrapped *APIError, and an APIError
   * is no sentinel that errors.Is could find.
   */
  lemma WrappedApiErrorLosesStatus(prefix: string, a: APIError)
    ensures !IsNotFound(Some(Wrapped(prefix, Api(a))))
    ensures !IsUnauthorized(Some(Wrapped(prefix, Api(a))))
  {
    var e := Wrapped(prefix, Api(a));
    forall k: Sentinel ensures !Is(e, k) {
      assert !Is(Api(a), k);
    }
  }
}
