/**
 * otel/config.go: the configuration of the OpenTelemetry integration, its
 * environment defaults, the endpoint with the Phoenix Cloud space appended,
 * and the hand-written header-string parser (split on ',' then on '=', with
 * blanks trimmed; no percent-decoding and no W3C Baggage properties).
 */
module OtelConfig {
  import opened Text

  const EnvCollectorEndpoint := "PHOENIX_COLLECTOR_ENDPOINT"
  const EnvProjectName := "PHOENIX_PROJECT_NAME"
  const EnvAPIKey := "PHOENIX_API_KEY"
  const EnvSpaceID := "PHOENIX_SPACE_ID"
  const EnvClientHeaders := "PHOENIX_CLIENT_HEADERS"
  const EnvGRPCPort := "PHOENIX_GRPC_PORT"
  const EnvOTELEndpoint := "OTEL_EXPORTER_OTLP_ENDPOINT"

  const DefaultEndpoint := "http://localhost:6006"
  const DefaultProjectName := "default"
  const DefaultGRPCPort := 4317
  const DefaultHTTPPath := "/v1/traces"
  const CloudEndpoint := "https://app.phoenix.arize.com"

  /** time.Duration, in nanoseconds. */
  type Duration = int
  const Second: Duration := 1_000_000_000

  /** The OTLP transport protocol names. */
  type Protocol = string
  const ProtocolHTTP: Protocol := "http/protobuf"
  const ProtocolGRPC: Protocol := "grpc"
  const ProtocolInfer: Protocol := "infer"

  /** The value of every field of a Config; a nil Headers map is the empty map. */
  datatype Settings = Settings(
    endpoint: string, spaceID: string, projectName: string, apiKey: string,
    headers: map<string, string>, protocol: Protocol, batch: bool,
    batchTimeout: Duration, batchSize: int, setGlobalProvider: bool,
    serviceName: string, serviceVersion: string, insecure: bool)

  /** The composite literal DefaultConfig starts from, before the environment is read. */
  const Literal := Settings(
    DefaultEndpoint, "", DefaultProjectName, "", map[], ProtocolInfer, false,
    5 * Second, 512, true, "", "", false)

  class Config {
    var endpoint: string
    var spaceID: string
    var projectName: string
    var apiKey: string
    var headers: map<string, string>
    var protocol: Protocol
    var batch: bool
    var batchTimeout: Duration
    var batchSize: int
    var setGlobalProvider: bool
    var serviceName: string
    var serviceVersion: string
    var insecure: bool

    function Value(): Settings
      reads this
    {
      Settings(endpoint, spaceID, projectName, apiKey, headers, protocol, batch,
               batchTimeout, batchSize, setGlobalProvider, serviceName, serviceVersion, insecure)
    }

    /** The composite literal at the start of DefaultConfig. */
    constructor ()
      ensures Value() == Literal
    {
      endpoint, spaceID, projectName, apiKey := DefaultEndpoint, "", DefaultProjectName, "";
      headers, protocol, batch := map[], ProtocolInfer, false;
      batchTimeout, batchSize, setGlobalProvider := 5 * Second, 512, true;
      serviceName, serviceVersion, insecure := "", "", false;
    }

    // One assignment per field, the body of each Option closure.

    method SetEndpoint(v: string)
      modifies this
      ensures Value() == old(Value()).(endpoint := v)
    {
      endpoint := v;
    }

    method SetSpaceID(v: string)
      modifies this
      ensures Value() == old(Value()).(spaceID := v)
    {
      spaceID := v;
    }

    method SetProjectName(v: string)
      modifies this
      ensures Value() == old(Value()).(projectName := v)
    {
      projectName := v;
    }

    method SetAPIKey(v: string)
      modifies this
      ensures Value() == old(Value()).(apiKey := v)
    {
      apiKey := v;
    }

    method SetHeaders(v: map<string, string>)
      modifies this
      ensures Value() == old(Value()).(headers := v)
    {
      headers := v;
    }

    method SetProtocol(v: Protocol)
      modifies this
      ensures Value() == old(Value()).(protocol := v)
    {
      protocol := v;
    }

    method SetBatch(v: bool)
      modifies this
      ensures Value() == old(Value()).(batch := v)
    {
      batch := v;
    }

    method SetBatchTimeout(v: Duration)
      modifies this
      ensures Value() == old(Value()).(batchTimeout := v)
    {
      batchTimeout := v;
    }

    method SetBatchSize(v: int)
      modifies this
      ensures Value() == old(Value()).(batchSize := v)
    {
      batchSize := v;
    }

    method SetGlobalProvider(v: bool)
      modifies this
      ensures Value() == old(Value()).(setGlobalProvider := v)
    {
      setGlobalProvider := v;
    }

    method SetServiceName(v: string)
      modifies this
      ensures Value() == old(Value()).(serviceName := v)
    {
      serviceName := v;
    }

    method SetServiceVersion(v: string)
      modifies this
      ensures Value() == old(Value()).(serviceVersion := v)
    {
      serviceVersion := v;
    }

    method SetInsecure(v: bool)
      modifies this
      ensures Value() == old(Value()).(insecure := v)
    {
      insecure := v;
    }

    /** The endpoint with all trailing '/' removed and "/s/" + SpaceID appended when SpaceID is set. */
    method EffectiveEndpoint() returns (r: string)
      ensures r == Effective(Value())
    {
      r := endpoint;
      if spaceID != "" {
        while |r| > 0 && r[|r| - 1] == '/'
          invariant StripTrailingSlashes(r) == StripTrailingSlashes(endpoint)
          decreases |r|
        {
          r := r[..|r| - 1];
        }
        r := r + "/s/" + spaceID;
      }
    }
  }

  // ---- endpoint ------------------------------------------------------------

  /** The endpoint with every trailing '/' removed. */
  function StripTrailingSlashes(s: string): string
    decreases |s|
  {
    if |s| > 0 && s[|s| - 1] == '/' then StripTrailingSlashes(s[..|s| - 1]) else s
  }

  predicate AllSlashes(s: string) {
    forall k :: 0 <= k < |s| ==> s[k] == '/'
  }

  /** The endpoint the exporter is pointed at. */
  function Effective(s: Settings): string {
    if s.spaceID == "" then s.endpoint else StripTrailingSlashes(s.endpoint) + "/s/" + s.spaceID
  }

  /** Stripping keeps a prefix, removes only '/', and leaves no trailing '/'. */
  lemma {:induction false} StripTrailingSlashesShape(s: string)
    ensures var r := StripTrailingSlashes(s);
      |r| <= |s| && r == s[..|r|] && AllSlashes(s[|r|..]) && !HasSuffix(r, "/")
    decreases |s|
  {
    if |s| > 0 && s[|s| - 1] == '/' {
      var t := s[..|s| - 1];
      StripTrailingSlashesShape(t);
      var r := StripTrailingSlashes(t);
      assert s[..|r|] == t[..|r|];
      assert s[|r|..] == t[|r|..] + "/";
    } else {
      assert s[|s|..] == "";
    }
  }

  /** Without a space the endpoint is used as is; with one, the slash-free prefix gets "/s/" + SpaceID. */
  lemma EffectiveEndpointShape(s: Settings)
    ensures s.spaceID == "" ==> Effective(s) == s.endpoint
    ensures s.spaceID != "" ==>
      var p := StripTrailingSlashes(s.endpoint);
      Effective(s) == p + "/s/" + s.spaceID && |p| <= |s.endpoint| && p == s.endpoint[..|p|] &&
      AllSlashes(s.endpoint[|p|..]) && !HasSuffix(p, "/")
  {
    StripTrailingSlashesShape(s.endpoint);
  }

  // ---- trim ----------------------------------------------------------------

  /** The two characters trim removes: ' ' and '\t'. */
  predicate IsBlank(c: char) {
    c == ' ' || c == '\t'
  }

  predicate AllBlank(s: string) {
    forall k :: 0 <= k < |s| ==> IsBlank(s[k])
  }

  function TrimLeft(s: string): string
    decreases |s|
  {
    if |s| > 0 && IsBlank(s[0]) then TrimLeft(s[1..]) else s
  }

  function TrimRight(s: string): string
    decreases |s|
  {
    if |s| > 0 && IsBlank(s[|s| - 1]) then TrimRight(s[..|s| - 1]) else s
  }

  /** The reference definition of trim. */
  function Trimmed(s: string): string {
    TrimRight(TrimLeft(s))
  }

  /** trim: move start forward and end backward past blanks, then slice. */
  method Trim(s: string) returns (r: string)
    ensures r == Trimmed(s)
  {
    var start, end := 0, |s|;
    while start < end && IsBlank(s[start])
      invariant 0 <= start <= end == |s|
      invariant TrimLeft(s[start..]) == TrimLeft(s)
    {
      assert s[start..][1..] == s[start + 1..];
      start := start + 1;
    }
    assert TrimLeft(s[start..]) == s[start..];
    assert s[start..end] == s[start..];
    while end > start && IsBlank(s[end - 1])
      invariant start <= end <= |s|
      invariant TrimRight(s[start..end]) == TrimRight(s[start..])
    {
      assert s[start..end][..end - 1 - start] == s[start..end - 1];
      end := end - 1;
    }
    r := s[start..end];
  }

  lemma {:induction false} TrimLeftShape(s: string)
    ensures var r := TrimLeft(s);
      |r| <= |s| && r == s[|s| - |r|..] && AllBlank(s[..|s| - |r|]) && (r == "" || !IsBlank(r[0]))
    decreases |s|
  {
    if |s| > 0 && IsBlank(s[0]) {
      TrimLeftShape(s[1..]);
      var r := TrimLeft(s[1..]);
      assert s[1..][|s| - 1 - |r|..] == s[|s| - |r|..];
      assert s[..|s| - |r|] == [s[0]] + s[1..][..|s| - 1 - |r|];
    } else {
      assert s[..0] == "";
    }
  }

  lemma {:induction false} TrimRightShape(s: string)
    ensures var r := TrimRight(s);
      |r| <= |s| && r == s[..|r|] && AllBlank(s[|r|..]) && (r == "" || !IsBlank(r[|r| - 1]))
    decreases |s|
  {
    if |s| > 0 && IsBlank(s[|s| - 1]) {
      var t := s[..|s| - 1];
      TrimRightShape(t);
      var r := TrimRight(t);
      assert s[..|r|] == t[..|r|];
      assert s[|r|..] == t[|r|..] + [s[|s| - 1]];
    } else {
      assert s[|s|..] == "";
    }
  }

  /**
   * trim returns one contiguous piece of its input, everything it cut off on
   * either side is blank (so no interior character is removed), and the piece
   * neither starts nor ends with a blank.
   */
  lemma TrimmedShape(s: string)
    ensures var r := Trimmed(s); var k := |s| - |TrimLeft(s)|;
      |TrimLeft(s)| <= |s| && k + |r| <= |s| && r == s[k..k + |r|] &&
      AllBlank(s[..k]) && AllBlank(s[k + |r|..]) &&
      (r == "" || (!IsBlank(r[0]) && !IsBlank(r[|r| - 1])))
  {
    var t := TrimLeft(s);
    TrimLeftShape(s);
    TrimRightShape(t);
    var r := TrimRight(t);
    var k := |s| - |t|;
    assert s[k..k + |r|] == t[..|r|];
    assert s[k + |r|..] == t[|r|..];
  }

  /** A string that neither starts nor ends with a blank is its own trim. */
  lemma TrimmedFixedPoint(s: string)
    requires s == "" || (!IsBlank(s[0]) && !IsBlank(s[|s| - 1]))
    ensures Trimmed(s) == s
  {
  }

  /** Trimming twice is trimming once. */
  lemma TrimmedIdempotent(s: string)
    ensures Trimmed(Trimmed(s)) == Trimmed(s)
  {
    TrimmedShape(s);
    TrimmedFixedPoint(Trimmed(s));
  }

  /** Every character of the trim occurs in the input. */
  lemma TrimmedChars(s: string)
    ensures forall c :: c in Trimmed(s) ==> c in s
  {
    TrimmedShape(s);
    var k := |s| - |TrimLeft(s)|;
    forall c | c in Trimmed(s) ensures c in s {
      var j :| 0 <= j < |Trimmed(s)| && Trimmed(s)[j] == c;
      assert s[k + j] == c;
    }
  }

  // ---- splitTrim -------------------------------------------------------------

  /** The index of the first occurrence of c, or |s| when there is none. */
  function FirstIndex(s: string, c: char): (i: nat)
    ensures i <= |s| && (i < |s| ==> s[i] == c)
    ensures forall k :: 0 <= k < i ==> s[k] != c
  {
    if |s| == 0 then 0 else if s[0] == c then 0 else 1 + FirstIndex(s[1..], c)
  }

  /** The pieces between separators, left to right (strings.Split on one character). */
  function Pieces(s: string, sep: char): seq<string>
    decreases |s|
  {
    var i := FirstIndex(s, sep);
    if i == |s| then [s] else [s[..i]] + Pieces(s[i + 1..], sep)
  }

  /** Pieces joined back with the separator. */
  function Join(xs: seq<string>, sep: char): string {
    if |xs| == 0 then "" else if |xs| == 1 then xs[0] else xs[0] + [sep] + Join(xs[1..], sep)
  }

  /** The trimmed pieces that are not empty, in order. */
  function Clean(xs: seq<string>): seq<string> {
    if |xs| == 0 then [] else Keep(xs[0]) + Clean(xs[1..])
  }

  function Keep(x: string): seq<string> {
    if Trimmed(x) == "" then [] else [Trimmed(x)]
  }

  /** The reference definition of splitTrim with a one-character separator. */
  function SplitTrimmed(s: string, sep: char): seq<string> {
    Clean(Pieces(s, sep))
  }

  lemma PiecesAtSeparator(t: string, j: nat, sep: char)
    requires j < |t| && t[j] == sep
    requires forall k :: 0 <= k < j ==> t[k] != sep
    ensures Pieces(t, sep) == [t[..j]] + Pieces(t[j + 1..], sep)
  {
    assert FirstIndex(t, sep) == j;
  }

  lemma PiecesWithoutSeparator(t: string, sep: char)
    requires forall k :: 0 <= k < |t| ==> t[k] != sep
    ensures Pieces(t, sep) == [t]
  {
    assert FirstIndex(t, sep) == |t|;
  }

  lemma CleanCons(x: string, xs: seq<string>)
    ensures Clean([x] + xs) == Keep(x) + Clean(xs)
  {
    assert ([x] + xs)[1..] == xs;
  }

  /** One separator found at i: the piece before it, then the pieces after it. */
  lemma SplitStep(s: string, start: nat, i: nat, sep: char)
    requires start <= i < |s| && s[i] == sep
    requires forall k :: start <= k < i ==> s[k] != sep
    ensures Clean(Pieces(s[start..], sep)) == Keep(s[start..i]) + Clean(Pieces(s[i + 1..], sep))
  {
    var t := s[start..];
    PiecesAtSeparator(t, i - start, sep);
    assert t[..i - start] == s[start..i];
    assert t[i - start + 1..] == s[i + 1..];
    CleanCons(s[start..i], Pieces(s[i + 1..], sep));
  }

  /** No separator left: the rest is the last piece. */
  lemma SplitLast(s: string, start: nat, sep: char)
    requires start <= |s|
    requires forall k :: start <= k < |s| ==> s[k] != sep
    ensures Clean(Pieces(s[start..], sep)) == Keep(s[start..])
  {
    PiecesWithoutSeparator(s[start..], sep);
    CleanCons(s[start..], []);
    assert [s[start..]] + [] == [s[start..]];
  }

  /** splitTrim: scan for the separator, keeping each trimmed non-empty piece. */
  method SplitTrim(s: string, sep: char) returns (result: seq<string>)
    ensures result == SplitTrimmed(s, sep)
  {
    result := [];
    var start := 0;
    for i := 0 to |s|
      invariant start <= i
      invariant forall k :: start <= k < i ==> s[k] != sep
      invariant result + Clean(Pieces(s[start..], sep)) == Clean(Pieces(s, sep))
    {
      if s[i] == sep {
        SplitInvariantStep(s, start, i, sep, result);
        result := AppendKept(result, s[start..i]);
        start := i + 1;
      }
    }
    SplitInvariantLast(s, start, sep, result);
    result := AppendKept(result, s[start..]);
  }

  /** The loop invariant of splitTrim survives a separator at i. */
  lemma SplitInvariantStep(s: string, start: nat, i: nat, sep: char, result: seq<string>)
    requires start <= i < |s| && s[i] == sep
    requires forall k :: start <= k < i ==> s[k] != sep
    requires result + Clean(Pieces(s[start..], sep)) == Clean(Pieces(s, sep))
    ensures (result + Keep(s[start..i])) + Clean(Pieces(s[i + 1..], sep)) == Clean(Pieces(s, sep))
  {
    SplitStep(s, start, i, sep);
    KeepThenRest(result, Keep(s[start..i]), Clean(Pieces(s[i + 1..], sep)));
  }

  /** At the end of the input the last piece completes splitTrim. */
  lemma SplitInvariantLast(s: string, start: nat, sep: char, result: seq<string>)
    requires start <= |s|
    requires forall k :: start <= k < |s| ==> s[k] != sep
    requires result + Clean(Pieces(s[start..], sep)) == Clean(Pieces(s, sep))
    ensures result + Keep(s[start..]) == Clean(Pieces(s, sep))
  {
    SplitLast(s, start, sep);
  }

  /** One piece of splitTrim: trimmed, and appended only when something is left. */
  method AppendKept(result: seq<string>, piece: string) returns (r: seq<string>)
    ensures r == result + Keep(piece)
  {
    r := result;
    var part := Trim(piece);
    if part != "" {
      r := r + [part];
    }
  }

  lemma KeepThenRest(a: seq<string>, b: seq<string>, c: seq<string>)
    ensures (a + b) + c == a + (b + c)
  {
  }

  /** Joining the pieces with the separator gives the input back. */
  lemma {:induction false} JoinPieces(s: string, sep: char)
    ensures |Pieces(s, sep)| >= 1 && Join(Pieces(s, sep), sep) == s
    decreases |s|
  {
    var i := FirstIndex(s, sep);
    if i < |s| {
      JoinPieces(s[i + 1..], sep);
      JoinPiecesStep(s, sep, i);
    }
  }

  lemma JoinPiecesStep(s: string, sep: char, i: nat)
    requires i == FirstIndex(s, sep) && i < |s|
    requires |Pieces(s[i + 1..], sep)| >= 1 && Join(Pieces(s[i + 1..], sep), sep) == s[i + 1..]
    ensures |Pieces(s, sep)| >= 1 && Join(Pieces(s, sep), sep) == s
  {
    var x, rest := s[..i], s[i + 1..];
    PiecesAtFirst(s, sep, i);
    JoinCons(x, Pieces(rest, sep), sep);
    SplitAround(s, i);
  }

  lemma SplitAround(s: string, i: nat)
    requires i < |s|
    ensures s[..i] + [s[i]] + s[i + 1..] == s
  {
  }

  lemma JoinCons(x: string, ys: seq<string>, sep: char)
    requires |ys| >= 1
    ensures Join([x] + ys, sep) == x + [sep] + Join(ys, sep)
  {
    assert ([x] + ys)[1..] == ys;
  }

  /** No piece contains the separator, and every character of a piece occurs in the input. */
  lemma {:induction false} PiecesChars(s: string, sep: char)
    ensures forall p, c :: p in Pieces(s, sep) && c in p ==> c != sep && c in s
    decreases |s|
  {
    var i := FirstIndex(s, sep);
    if i < |s| {
      PiecesChars(s[i + 1..], sep);
      forall p, c | p in Pieces(s, sep) && c in p ensures c != sep && c in s {
        if p == s[..i] {
          var j :| 0 <= j < |p| && p[j] == c;
          assert s[j] == c;
        } else {
          assert p in Pieces(s[i + 1..], sep);
          assert c in s[i + 1..];
          var j :| 0 <= j < |s[i + 1..]| && s[i + 1..][j] == c;
          assert s[i + 1 + j] == c;
        }
      }
    }
  }

  lemma FirstIndexAppend(a: string, b: string, sep: char)
    ensures FirstIndex(a + [sep] + b, sep) == FirstIndex(a, sep)
  {
    var w := a + [sep] + b;
    var f := FirstIndex(a, sep);
    assert f < |w| && w[f] == sep;
    assert forall k :: 0 <= k < f ==> w[k] == a[k];
  }

  lemma PiecesAtFirst(w: string, sep: char, f: nat)
    requires f == FirstIndex(w, sep) && f < |w|
    ensures Pieces(w, sep) == [w[..f]] + Pieces(w[f + 1..], sep)
  {
  }

  lemma PiecesAppendSeparatorFree(a: string, b: string, sep: char)
    requires FirstIndex(a, sep) == |a|
    ensures Pieces(a + [sep] + b, sep) == [a] + Pieces(b, sep)
  {
    var w := a + [sep] + b;
    FirstIndexAppend(a, b, sep);
    PiecesAtFirst(w, sep, |a|);
    assert w[..|a|] == a;
    assert w[|a| + 1..] == b;
  }

  /** Splitting a concatenation around one separator splits each side. */
  lemma {:induction false} PiecesAppend(a: string, b: string, sep: char)
    ensures Pieces(a + [sep] + b, sep) == Pieces(a, sep) + Pieces(b, sep)
    decreases |a|
  {
    var f := FirstIndex(a, sep);
    if f == |a| {
      PiecesAppendSeparatorFree(a, b, sep);
      PiecesWithoutSeparator(a, sep);
    } else {
      PiecesAppend(a[f + 1..], b, sep);
      PiecesAppendStep(a, b, sep, f);
    }
  }

  lemma PiecesAppendStep(a: string, b: string, sep: char, f: nat)
    requires f == FirstIndex(a, sep) && f < |a|
    requires Pieces(a[f + 1..] + [sep] + b, sep) == Pieces(a[f + 1..], sep) + Pieces(b, sep)
    ensures Pieces(a + [sep] + b, sep) == Pieces(a, sep) + Pieces(b, sep)
  {
    PiecesAroundSeparator(a, b, sep, f);
    PiecesAtFirst(a, sep, f);
    ConsThenRest(a[..f], Pieces(a[f + 1..], sep), Pieces(b, sep));
  }

  lemma PiecesAroundSeparator(a: string, b: string, sep: char, f: nat)
    requires f == FirstIndex(a, sep) && f < |a|
    ensures Pieces(a + [sep] + b, sep) == [a[..f]] + Pieces(a[f + 1..] + [sep] + b, sep)
  {
    var w := a + [sep] + b;
    FirstIndexAppend(a, b, sep);
    assert w[..f] == a[..f];
    assert w[f + 1..] == a[f + 1..] + [sep] + b;
    PiecesAtFirst(w, sep, f);
  }

  lemma ConsThenRest(x: string, p: seq<string>, q: seq<string>)
    ensures [x] + (p + q) == ([x] + p) + q
  {
  }

  lemma {:induction false} CleanAppend(xs: seq<string>, ys: seq<string>)
    ensures Clean(xs + ys) == Clean(xs) + Clean(ys)
    decreases |xs|
  {
    if |xs| > 0 {
      assert (xs + ys)[1..] == xs[1..] + ys;
      CleanAppend(xs[1..], ys);
    } else {
      assert xs + ys == ys;
    }
  }

  /** Every kept piece is non-empty and already trimmed; its characters come from the input. */
  lemma {:induction false} CleanElements(xs: seq<string>)
    ensures forall x :: x in Clean(xs) ==> x != "" && Trimmed(x) == x && exists y :: y in xs && forall c :: c in x ==> c in y
    decreases |xs|
  {
    if |xs| > 0 {
      CleanElements(xs[1..]);
      TrimmedIdempotent(xs[0]);
      TrimmedChars(xs[0]);
      forall x | x in Clean(xs)
        ensures x != "" && Trimmed(x) == x && exists y :: y in xs && forall c :: c in x ==> c in y
      {
        if x in Keep(xs[0]) {
          assert xs[0] in xs;
        } else {
          assert x in Clean(xs[1..]);
          var y :| y in xs[1..] && forall c :: c in x ==> c in y;
          assert y in xs;
        }
      }
    }
  }

  /**
   * splitTrim never yields an empty part, every part is already trimmed, no
   * part contains the separator, and every character of a part is in the input.
   */
  lemma SplitTrimmedParts(s: string, sep: char)
    ensures forall x :: x in SplitTrimmed(s, sep) ==>
      x != "" && Trimmed(x) == x && forall c :: c in x ==> c != sep && c in s
  {
    CleanElements(Pieces(s, sep));
    PiecesChars(s, sep);
  }

  /** A separator-free input gives [trim(s)], or [] when it is blank. */
  lemma SplitTrimmedNoSeparator(s: string, sep: char)
    requires forall k :: 0 <= k < |s| ==> s[k] != sep
    ensures Trimmed(s) == "" ==> SplitTrimmed(s, sep) == []
    ensures Trimmed(s) != "" ==> SplitTrimmed(s, sep) == [Trimmed(s)]
  {
    PiecesWithoutSeparator(s, sep);
    CleanCons(s, []);
    assert [s] + [] == [s];
  }

  /** Splitting around a separator concatenates the parts of both sides, in order. */
  lemma SplitTrimmedAppend(a: string, b: string, sep: char)
    ensures SplitTrimmed(a + [sep] + b, sep) == SplitTrimmed(a, sep) + SplitTrimmed(b, sep)
  {
    PiecesAppend(a, b, sep);
    CleanAppend(Pieces(a, sep), Pieces(b, sep));
  }

  // ---- parseHeaders ----------------------------------------------------------

  /** The headers collected from the parts, a later part overwriting an earlier key. */
  function HeaderEntries(parts: seq<string>): map<string, string> {
    if |parts| == 0 then map[]
    else
      var h := HeaderEntries(parts[..|parts| - 1]);
      var kv := SplitTrimmed(parts[|parts| - 1], '=');
      if |kv| == 2 then h[kv[0] := kv[1]] else h
  }

  /** The reference definition of parseHeaders. */
  function ParsedHeaders(s: string): map<string, string> {
    HeaderEntries(SplitTrimmed(s, ','))
  }

  /** parseHeaders: keep every part that splits into exactly two pieces on '='. */
  method ParseHeaders(s: string) returns (headers: map<string, string>)
    ensures headers == ParsedHeaders(s)
  {
    headers := map[];
    var parts := SplitTrim(s, ',');
    for i := 0 to |parts|
      invariant headers == HeaderEntries(parts[..i])
    {
      assert parts[..i + 1][..i] == parts[..i];
      var kv := SplitTrim(parts[i], '=');
      if |kv| == 2 {
        headers := headers[kv[0] := kv[1]];
      }
    }
    assert parts[..|parts|] == parts;
  }

  /** A header key or value: non-empty, trimmed, and free of ',' and '='. */
  predicate HeaderToken(t: string) {
    t != "" && Trimmed(t) == t && ',' !in t && '=' !in t
  }

  lemma {:induction false} HeaderEntriesTokens(parts: seq<string>)
    requires forall p :: p in parts ==> ',' !in p
    ensures forall k :: k in HeaderEntries(parts) ==> HeaderToken(k) && HeaderToken(HeaderEntries(parts)[k])
    decreases |parts|
  {
    if |parts| > 0 {
      var last := parts[|parts| - 1];
      assert last in parts;
      assert forall p :: p in parts[..|parts| - 1] ==> p in parts;
      HeaderEntriesTokens(parts[..|parts| - 1]);
      SplitTrimmedParts(last, '=');
      var kv := SplitTrimmed(last, '=');
      if |kv| == 2 {
        assert kv[0] in kv && kv[1] in kv;
      }
    }
  }

  /** Every parsed key and value is non-empty, trimmed, and contains neither ',' nor '='. */
  lemma ParsedHeadersTokens(s: string)
    ensures forall k :: k in ParsedHeaders(s) ==> HeaderToken(k) && HeaderToken(ParsedHeaders(s)[k])
  {
    SplitTrimmedParts(s, ',');
    HeaderEntriesTokens(SplitTrimmed(s, ','));
  }

  /** A non-empty token without a blank at either end. */
  predicate Bare(t: string) {
    t != "" && !IsBlank(t[0]) && !IsBlank(t[|t| - 1]) && ',' !in t && '=' !in t
  }

  lemma BareSplit(t: string, sep: char)
    requires Bare(t) && (sep == ',' || sep == '=')
    ensures SplitTrimmed(t, sep) == [t]
  {
    TrimmedFixedPoint(t);
    SplitTrimmedNoSeparator(t, sep);
  }

  /** One header part that survives splitting on ',' unchanged. */
  lemma OnePart(p: string)
    requires p != "" && !IsBlank(p[0]) && !IsBlank(p[|p| - 1]) && ',' !in p
    ensures ParsedHeaders(p) == HeaderEntries([p])
  {
    TrimmedFixedPoint(p);
    SplitTrimmedNoSeparator(p, ',');
  }

  /** "k=v" parses to exactly the one header k: v. */
  lemma SingleHeader(k: string, v: string)
    requires Bare(k) && Bare(v)
    ensures ParsedHeaders(k + "=" + v) == map[k := v]
  {
    var p := k + "=" + v;
    assert p == k + ['='] + v;
    OnePart(p);
    SplitTrimmedAppend(k, v, '=');
    BareSplit(k, '=');
    BareSplit(v, '=');
    assert [p][..0] == [];
  }

  /** With a key repeated, the later value wins. */
  lemma LaterDuplicateWins(a: string, k: string, v: string)
    requires Bare(k) && Bare(v)
    ensures var h := ParsedHeaders(a + "," + k + "=" + v); k in h && h[k] == v
  {
    var b := k + "=" + v;
    assert a + "," + k + "=" + v == a + [','] + b;
    assert b == k + ['='] + v;
    SplitTrimmedAppend(a, b, ',');
    TrimmedFixedPoint(b);
    SplitTrimmedNoSeparator(b, ',');
    SplitTrimmedAppend(k, v, '=');
    BareSplit(k, '=');
    BareSplit(v, '=');
    var xs := SplitTrimmed(a, ',');
    assert (xs + [b])[..|xs|] == xs;
  }

  /** "k=" (no value) is dropped. */
  lemma MissingValueDropped(k: string)
    requires Bare(k)
    ensures ParsedHeaders(k + "=") == map[]
  {
    var p := k + "=";
    assert p == k + ['='] + "";
    OnePart(p);
    SplitTrimmedAppend(k, "", '=');
    BareSplit(k, '=');
    assert SplitTrimmed("", '=') == [] by { SplitTrimmedNoSeparator("", '='); }
    assert [p][..0] == [];
  }

  /** "=v" (no key) is dropped. */
  lemma MissingKeyDropped(v: string)
    requires Bare(v)
    ensures ParsedHeaders("=" + v) == map[]
  {
    var p := "=" + v;
    assert p == "" + ['='] + v;
    OnePart(p);
    SplitTrimmedAppend("", v, '=');
    BareSplit(v, '=');
    assert SplitTrimmed("", '=') == [] by { SplitTrimmedNoSeparator("", '='); }
    assert [p][..0] == [];
  }

  /** "a=b=c" (three fields) is dropped. */
  lemma ThreeFieldsDropped(a: string, b: string, c: string)
    requires Bare(a) && Bare(b) && Bare(c)
    ensures ParsedHeaders(a + "=" + b + "=" + c) == map[]
  {
    var bc := b + "=" + c;
    var p := a + "=" + bc;
    assert a + "=" + b + "=" + c == p;
    assert p == a + ['='] + bc;
    assert bc == b + ['='] + c;
    OnePart(p);
    SplitTrimmedAppend(a, bc, '=');
    SplitTrimmedAppend(b, c, '=');
    BareSplit(a, '=');
    BareSplit(b, '=');
    BareSplit(c, '=');
    assert [p][..0] == [];
  }

  // ---- DefaultConfig -----------------------------------------------------------

  /** getEnvCollectorEndpoint: PHOENIX_COLLECTOR_ENDPOINT, else OTEL_EXPORTER_OTLP_ENDPOINT. */
  function CollectorEndpoint(env: map<string, string>): (r: string)
    ensures Getenv(env, EnvCollectorEndpoint) != "" ==> r == Getenv(env, EnvCollectorEndpoint)
    ensures Getenv(env, EnvCollectorEndpoint) == "" ==> r == Getenv(env, EnvOTELEndpoint)
  {
    var e := Getenv(env, EnvCollectorEndpoint);
    if e != "" then e else Getenv(env, EnvOTELEndpoint)
  }

  /** The configuration DefaultConfig returns, step by step as the environment is read. */
  function DefaultSettings(env: map<string, string>): Settings {
    HeadersStep(APIKeyStep(ProjectStep(SpaceStep(EndpointStep(Literal, env), env), env), env), env)
  }

  function EndpointStep(s: Settings, env: map<string, string>): Settings {
    var endpoint := CollectorEndpoint(env);
    if endpoint != "" then s.(endpoint := endpoint) else s
  }

  function SpaceStep(s: Settings, env: map<string, string>): Settings {
    var spaceID := Getenv(env, EnvSpaceID);
    if spaceID != "" then
      s.(spaceID := spaceID, endpoint := if s.endpoint == DefaultEndpoint then CloudEndpoint else s.endpoint)
    else s
  }

  function ProjectStep(s: Settings, env: map<string, string>): Settings {
    var projectName := Getenv(env, EnvProjectName);
    if projectName != "" then s.(projectName := projectName) else s
  }

  function APIKeyStep(s: Settings, env: map<string, string>): Settings {
    var apiKey := Getenv(env, EnvAPIKey);
    if apiKey != "" then s.(apiKey := apiKey) else s
  }

  function HeadersStep(s: Settings, env: map<string, string>): Settings {
    var headers := Getenv(env, EnvClientHeaders);
    if headers != "" then s.(headers := ParsedHeaders(headers)) else s
  }

  /** DefaultConfig: the literal, then each environment variable that is set. */
  method DefaultConfig(env: map<string, string>) returns (cfg: Config)
    ensures fresh(cfg) && cfg.Value() == DefaultSettings(env)
  {
    cfg := new Config();
    var endpoint := CollectorEndpoint(env);
    if endpoint != "" {
      cfg.endpoint := endpoint;
    }
    ghost var s1 := EndpointStep(Literal, env);
    assert cfg.Value() == s1;
    var spaceID := Getenv(env, EnvSpaceID);
    if spaceID != "" {
      cfg.spaceID := spaceID;
      if cfg.endpoint == DefaultEndpoint {
        cfg.endpoint := CloudEndpoint;
      }
    }
    assert cfg.Value() == SpaceStep(s1, env);
    ReadAccountEnv(cfg, env);
  }

  /** The rest of DefaultConfig: the project name, the API key and the client headers. */
  method ReadAccountEnv(cfg: Config, env: map<string, string>)
    modifies cfg
    ensures cfg.Value() == HeadersStep(APIKeyStep(ProjectStep(old(cfg.Value()), env), env), env)
  {
    var projectName := Getenv(env, EnvProjectName);
    if projectName != "" {
      cfg.projectName := projectName;
    }
    ghost var s3 := ProjectStep(old(cfg.Value()), env);
    assert cfg.Value() == s3;
    var apiKey := Getenv(env, EnvAPIKey);
    if apiKey != "" {
      cfg.apiKey := apiKey;
    }
    ghost var s4 := APIKeyStep(s3, env);
    assert cfg.Value() == s4;
    var headers := Getenv(env, EnvClientHeaders);
    if headers != "" {
      cfg.headers := ParseHeaders(headers);
    }
  }

  /** The fields no environment variable touches keep their defaults. */
  lemma DefaultSettingsFixedFields(env: map<string, string>)
    ensures var s := DefaultSettings(env);
      s.protocol == ProtocolInfer && !s.batch && s.batchTimeout == 5 * Second &&
      s.batchSize == 512 && s.setGlobalProvider && !s.insecure &&
      s.serviceName == "" && s.serviceVersion == ""
  {
  }

  /**
   * The endpoint: PHOENIX_COLLECTOR_ENDPOINT beats OTEL_EXPORTER_OTLP_ENDPOINT,
   * and a space switches to Phoenix Cloud only while the endpoint is still the default.
   */
  lemma DefaultSettingsEndpoint(env: map<string, string>)
    ensures var s := DefaultSettings(env); var e := CollectorEndpoint(env);
      (Getenv(env, EnvSpaceID) == "" ==> s.endpoint == (if e != "" then e else DefaultEndpoint)) &&
      (Getenv(env, EnvSpaceID) != "" ==>
        s.endpoint == (if e == "" || e == DefaultEndpoint then CloudEndpoint else e))
    ensures (Getenv(env, EnvCollectorEndpoint) != "" && Getenv(env, EnvOTELEndpoint) != "" &&
             Getenv(env, EnvSpaceID) == "") ==>
      DefaultSettings(env).endpoint == Getenv(env, EnvCollectorEndpoint)
  {
  }

  /** Every other variable overrides its field only when non-empty. */
  lemma DefaultSettingsOverrides(env: map<string, string>)
    ensures var s := DefaultSettings(env);
      s.spaceID == Getenv(env, EnvSpaceID) &&
      s.apiKey == Getenv(env, EnvAPIKey) &&
      (Getenv(env, EnvProjectName) != "" ==> s.projectName == Getenv(env, EnvProjectName)) &&
      (Getenv(env, EnvProjectName) == "" ==> s.projectName == DefaultProjectName) &&
      (Getenv(env, EnvClientHeaders) != "" ==> s.headers == ParsedHeaders(Getenv(env, EnvClientHeaders))) &&
      (Getenv(env, EnvClientHeaders) == "" ==> s.headers == map[])
  {
  }

  /** With none of the variables set, DefaultConfig is the literal. */
  lemma DefaultSettingsEmptyEnvironment()
    ensures DefaultSettings(map[]) == Literal
  {
  }
}
