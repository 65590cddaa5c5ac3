/**
 * The list pattern shared by the REST wrappers: cursor and limit parameters
 * set only under conditions, the next cursor of a nullable field, and the
 * element-by-element conversion of a response page.
 */
module Listing {
  import opened Api
  import opened ClientOptions

  /** `if !resp.NextCursor.Null { nextCursor = resp.NextCursor.Value }`: a null cursor reads as "". */
  function NextCursor(c: Nil<string>): (r: string)
    ensures c.isNull ==> r == ""
    ensures !c.isNull ==> r == c.value
  {
    if c.isNull then "" else c.value
  }

  /** The cursor parameter is set iff the cursor is non-empty, the limit parameter iff the limit is positive. */
  function PagingFor(s: ListSettings): (p: Paging)
    ensures p.cursor.isSet <==> s.cursor != ""
    ensures p.limit.isSet <==> s.limit > 0
    ensures p.cursor.isSet ==> p.cursor.value == s.cursor
    ensures p.limit.isSet ==> p.limit.value == s.limit
    ensures !p.cursor.isSet ==> p.cursor == NoString
    ensures !p.limit.isSet ==> p.limit == NoInt
  {
    Paging(if s.cursor != "" then SetTo(s.cursor) else NoString,
           if s.limit > 0 then SetTo(s.limit) else NoInt)
  }

  /** The results of a list call: the converted items and the cursor of the next page. */
  datatype Page<T> = Page(items: seq<T>, nextCursor: string)

  /** `options := defaultListOptions(); for _, opt := range opts { opt(options) }` */
  method FoldListOptions(opts: seq<ListOption>) returns (s: ListSettings)
    ensures s == ListAppliedAll(DefaultListSettings, opts)
  {
    var options := new ListOptions();
    options.ApplyAll(opts);
    s := options.Value();
  }

  /** One converted element per input element, in order. */
  predicate Converted<A, B(==)>(xs: seq<A>, ys: seq<B>, f: A -> B) {
    |ys| == |xs| && forall i :: 0 <= i < |xs| ==> ys[i] == f(xs[i])
  }

  /** The `for i := range resp.Data { out = append(out, convert(&resp.Data[i])) }` loop. */
  method ConvertAll<A, B(==)>(xs: seq<A>, f: A -> B) returns (ys: seq<B>)
    ensures Converted(xs, ys, f)
  {
    ys := [];
    var i := 0;
    while i < |xs|
      invariant 0 <= i <= |xs|
      invariant Converted(xs[..i], ys, f)
    {
      ys := ys + [f(xs[i])];
      i := i + 1;
    }
    assert xs[..i] == xs;
  }

  /**
   * The list options a call ends with and the parameters they give: with
   * no options the default limit of 100 is sent and no cursor.
   */
  lemma DefaultPaging()
    ensures PagingFor(ListAppliedAll(DefaultListSettings, [])) == Paging(NoString, SetTo(100))
  {
  }
}
