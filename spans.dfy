/**
 * span.go: span conversion and GetSpans with its own options (default limit 100).
 */
module Spans {
  import opened Wrappers
  import opened Errors
  import Api
  import opened Listing
  import ClientOptions

  datatype Span = Span(
    id: string, name: string, spanKind: string, statusCode: string, statusMessage: string,
    parentID: string, traceID: string, spanID: string, startTime: Api.Time, endTime: Api.Time)

  // ---- options ---------------------------------------------------------

  datatype SpanSettings = SpanSettings(cursor: string, limit: int)

  /** `&spanOptions{limit: 100}` */
  const DefaultSpanSettings := SpanSettings("", 100)

  datatype SpanOption = WithSpanCursor(cursor: string) | WithSpanLimit(limit: int)

  function SpanApplied(s: SpanSettings, opt: SpanOption): (r: SpanSettings)
    ensures opt.WithSpanCursor? ==> r == s.(cursor := opt.cursor)
    ensures opt.WithSpanLimit? ==> r == s.(limit := opt.limit)
  {
    match opt
    case WithSpanCursor(c) => s.(cursor := c)
    case WithSpanLimit(n) => s.(limit := n)
  }

  function SpanAppliedAll(s: SpanSettings, opts: seq<SpanOption>): SpanSettings
    decreases |opts|
  {
    if |opts| == 0 then s else SpanApplied(SpanAppliedAll(s, opts[..|opts| - 1]), opts[|opts| - 1])
  }

  /** spanOptions */
  class SpanOptions {
    var cursor: string
    var limit: int

    function Value(): SpanSettings
      reads this
    {
      SpanSettings(cursor, limit)
    }

    constructor ()
      ensures Value() == DefaultSpanSettings
    {
      cursor, limit := "", 100;
    }

    method ApplyAll(opts: seq<SpanOption>)
      modifies this
      ensures Value() == SpanAppliedAll(old(Value()), opts)
    {
      var i := 0;
      while i < |opts|
        invariant 0 <= i <= |opts|
        invariant Value() == SpanAppliedAll(old(Value()), opts[..i])
      {
        assert opts[..i + 1][..i] == opts[..i];
        match opts[i] {
          case WithSpanCursor(c) => cursor := c;
          case WithSpanLimit(n) => limit := n;
        }
        i := i + 1;
      }
      assert opts[..i] == opts;
    }
  }

  /** The paging of GetSpans: the cursor when non-empty, the limit when positive. */
  function SpanPaging(s: SpanSettings): (p: Api.Paging)
    ensures p.cursor.isSet <==> s.cursor != ""
    ensures p.limit.isSet <==> s.limit > 0
    ensures p.cursor.isSet ==> p.cursor.value == s.cursor
    ensures p.limit.isSet ==> p.limit.value == s.limit
  {
    PagingFor(ClientOptions.ListSettings(s.cursor, s.limit))
  }

  /** Folding a + b is folding a, then b. */
  lemma {:induction false} SpanAppliedAllAppend(s: SpanSettings, a: seq<SpanOption>, b: seq<SpanOption>)
    ensures SpanAppliedAll(s, a + b) == SpanAppliedAll(SpanAppliedAll(s, a), b)
    decreases |b|
  {
    if |b| == 0 {
      assert a + b == a;
    } else {
      var front := b[..|b| - 1];
      assert (a + b)[..|a + b| - 1] == a + front;
      assert (a + b)[|a + b| - 1] == b[|b| - 1];
      SpanAppliedAllAppend(s, a, front);
    }
  }

  /**
   * The limit sent: 100 without WithSpanLimit; otherwise the value of the last
   * WithSpanLimit when it is positive, and no limit at all when that value is
   * 0 or negative, whatever cursor options come after it.
   */
  lemma SpanLimitRule(pre: seq<SpanOption>, n: int, post: seq<SpanOption>)
    requires forall i :: 0 <= i < |post| ==> !post[i].WithSpanLimit?
    ensures (forall i :: 0 <= i < |pre| ==> !pre[i].WithSpanLimit?) ==>
      SpanPaging(SpanAppliedAll(DefaultSpanSettings, pre)).limit == Api.SetTo(100)
    ensures var p := SpanPaging(SpanAppliedAll(DefaultSpanSettings, pre + [WithSpanLimit(n)] + post));
      (n > 0 ==> p.limit == Api.SetTo(n)) && (n <= 0 ==> !p.limit.isSet)
  {
    DefaultLimitKept(DefaultSpanSettings, pre);
    var head := pre + [WithSpanLimit(n)];
    SpanAppliedAllAppend(DefaultSpanSettings, head, post);
    assert head[..|head| - 1] == pre;
    DefaultLimitKept(SpanAppliedAll(DefaultSpanSettings, head), post);
  }

  /** Without WithSpanLimit the limit keeps its starting value (100 for the defaults). */
  lemma {:induction false} DefaultLimitKept(s: SpanSettings, opts: seq<SpanOption>)
    ensures (forall i :: 0 <= i < |opts| ==> !opts[i].WithSpanLimit?) ==> SpanAppliedAll(s, opts).limit == s.limit
    decreases |opts|
  {
    if |opts| > 0 {
      var front := opts[..|opts| - 1];
      assert forall i :: 0 <= i < |front| ==> front[i] == opts[i];
      DefaultLimitKept(s, front);
    }
  }

  // ---- conversions -----------------------------------------------------

  /**
   * convertSpan on a non-nil span: ID and StatusMessage when set, ParentID
   * when set and not null, TraceID and SpanID from the span context.
   */
  function SpanOf(s: Api.Span): (r: Span)
    ensures r.name == s.name && r.spanKind == s.spanKind && r.statusCode == s.statusCode
    ensures r.startTime == s.startTime && r.endTime == s.endTime
    ensures r.traceID == s.context.traceID && r.spanID == s.context.spanID
    ensures r.id == (if s.id.isSet then s.id.value else "")
    ensures r.statusMessage == (if s.statusMessage.isSet then s.statusMessage.value else "")
    ensures r.parentID == (if s.parentID.isSet && !s.parentID.isNull then s.parentID.value else "")
  {
    Span(if s.id.isSet then s.id.value else "", s.name, s.spanKind, s.statusCode,
      if s.statusMessage.isSet then s.statusMessage.value else "",
      if s.parentID.isSet && !s.parentID.isNull then s.parentID.value else "",
      s.context.traceID, s.context.spanID, s.startTime, s.endTime)
  }

  function ConvertSpan(s: Option<Api.Span>): (r: Option<Span>)
    ensures s.None? <==> r.None?
    ensures s.Some? ==> r.value == SpanOf(s.value)
  {
    match s
    case None => None
    case Some(x) => Some(SpanOf(x))
  }

  /** GetSpans: the project identifier and paging sent, and the converted page or the error. */
  method GetSpans(projectIdentifier: string, opts: seq<SpanOption>, reply: Api.Reply<Api.SpansResponseBody>)
    returns (identifier: string, params: Api.Paging, res: Result<Page<Span>, Error>)
    ensures identifier == projectIdentifier
    ensures params == SpanPaging(SpanAppliedAll(DefaultSpanSettings, opts))
    ensures res.Success? <==> reply.Body?
    ensures res.Failure? ==> res.error == Api.Decoded(reply).error
    ensures res.Success? ==> (Converted(reply.body.data, res.value.items, SpanOf) &&
      res.value.nextCursor == NextCursor(reply.body.nextCursor))
  {
    identifier := projectIdentifier;
    var options := new SpanOptions();
    options.ApplyAll(opts);
    params := SpanPaging(options.Value());
    var decoded := Api.Decoded(reply);
    if decoded.Failure? {
      return identifier, params, Failure(decoded.error);
    }
    var spans := ConvertAll(decoded.value.data, SpanOf);
    res := Success(Page(spans, NextCursor(decoded.value.nextCursor)));
  }
}
