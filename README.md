# go-phoenix in Dafny

A model of the Go SDK for Arize Phoenix: the REST client (configuration, options,
errors, the wrappers that build requests and convert replies for annotations,
prompts, datasets, projects, spans and experiments), the `otel` package that
configures an OpenTelemetry exporter for Phoenix, the `evals` evaluator that runs
metrics and records their scores as span annotations, and the `llmops` provider
that adapts all of this to the omniobserve observability interface (traces and
spans kept in a request context, feedback, prompts, datasets, projects and
annotations).

One Dafny module follows one Go file, with these exceptions:
- `llmops/trace.go` and `llmops/span.go` share the module `Tracing`, because the two wrappers refer to each other.
- `Api` declares the shapes of the generated `internal/api` package. That package is not part of this model, so its shapes are inferred from their use: `Opt<T>` has a `Set` flag, `OptNil<T>` has `Set` and `Null`, and `Nil<T>` has `Null`.
- `Observe` declares the omniobserve `llmops` records the provider takes and returns.
- `Text` holds the four standard-library helpers the code relies on: `strings.HasPrefix`, `strings.HasSuffix`, `strings.TrimSuffix` and `os.Getenv`.
- `Listing` holds what every list call shares: the cursor and limit parameters, the next-cursor rule, and the order-preserving conversion loop.

How the model is written:
- Pure Go functions become Dafny functions. Code that changes state becomes classes and methods, proved against those functions:
  - the option closures over `Config`, `clientOptions`, `listOptions` and the per-call option records;
  - `Validate`, which rewrites `URL` in place;
  - the trace and span wrappers, with their `endTime` field;
  - `Provider.SetProject`.
- Every network call is an input. Its reply is a `Reply<T>`: a transport error, a reply of an unexpected type, or the expected body.
- A call whose reply is ignored takes the error it returns instead.
- The environment, the clock, `url.Parse` and `json.Marshal` are parameters.
- Attribute writes to an OpenTelemetry span are an append-only log of key/value pairs, held in `Tracing.OtelSpan`.

## Model

| member | source | states |
|---|---|---|
| Errors.APIError.Text | errors.go:42-47 | the text is "phoenix: API error" followed by ": <message>" when there are no details, else by " (<message>): <details>"; the two characters after the prefix (": " or " (") tell the layouts apart, and the slices and lengths pin the whole text |
| Errors.NilIsUnclassified | errors.go:50-96 | a nil error is not-found, unauthorized, forbidden or rate-limited under none of the four classifiers |
| Errors.ApiErrorByStatus | errors.go:50-96 | an unwrapped APIError is classified by its status code alone: 404, 401, 403, 429, each in both directions |
| Errors.AtMostOneClass | errors.go:50-96 | no error falls under two of the four classifiers |
| Errors.IsThroughWrapping | errors.go:50-63 | errors.Is against a sentinel looks through one level of wrapping, in both directions |
| Errors.NotFoundSentinelChains | errors.go:50-63 | an error that is not a bare APIError is not-found exactly when one of the six not-found sentinels occurs in its wrap chain, and it is never unauthorized, forbidden or rate-limited |
| Errors.OtherSentinelsAreNotNotFound | errors.go:5-33 | ErrMissingURL, ErrMissingAPIKey and ErrInvalidInput are not not-found errors |
| Errors.WrappedApiErrorLosesStatus | errors.go:50-74 | a wrapped APIError is not classified by its status: the classifiers only type-assert the outer error |
| ClientConfig.Config.constructor | config.go:45-51 | a new Config holds the defaults (DefaultURL, project "default", no key, no space) |
| ClientConfig.Config.LoadFromEnv | config.go:65-82 | the new value is FromEnv of the old one |
| ClientConfig.Config.Validate | config.go:85-97 | an empty URL gives ErrMissingURL and changes nothing; otherwise no error and the value becomes Validated of the old one |
| ClientConfig.Config.BaseURL | config.go:100-102 | the base URL is the configured URL |
| ClientConfig.LoadConfig | config.go:58-62 | a fresh Config holding the environment over the defaults |
| ClientConfig.FromEnvOverrides | config.go:65-82 | each of PHOENIX_API_KEY, PHOENIX_PROJECT_NAME, PHOENIX_SPACE_ID replaces its field exactly when set and non-empty; an empty environment changes nothing |
| ClientConfig.FromEnvURL | config.go:65-82 | PHOENIX_URL replaces the URL when non-empty; with a space ID set, a URL equal to the local default becomes the Phoenix Cloud URL, any other URL is kept |
| ClientConfig.LoadConfigEmptyEnvironment | config.go:45-62 | with no environment variables LoadConfig gives exactly the defaults |
| ClientConfig.ValidatedFailsIffMissingURL | config.go:85-97 | validation fails exactly when the URL is empty, with ErrMissingURL, and never touches space ID, key or project |
| ClientConfig.ValidatedTrimsOneSlash | config.go:85-97 | without a space ID the validated URL is the URL minus at most one trailing "/", so "…//" keeps a slash |
| ClientConfig.DoubleSlashKeepsOne | config.go:90 | strings.TrimSuffix removes a single "/" |
| ClientConfig.ValidatedAppendsSpace | config.go:85-97 | with a space ID the validated URL is the URL minus one trailing "/", then "/s/" and the space ID |
| ClientConfig.ValidatedTwiceAppendsAgain | config.go:85-97 | Validate is not idempotent with a space ID: a second call appends "/s/<space>" again |
| ClientConfig.NormalisersDiffer | config.go:90 | the REST config and the OTel config normalise "x//" differently (one slash trimmed versus all) |
| ClientOptions.ConfigsOf | options.go:56-60 | exactly the configurations passed by WithConfig options |
| ClientOptions.Step | options.go:25-74 | one option keeps the current configuration among the known ones and the known set unchanged |
| ClientOptions.Folded | client.go:28-31 | applying the options left to right keeps those facts |
| ClientOptions.Options.constructor | options.go:18-23 | fresh options hold LoadConfig's configuration, no HTTP client and the 60-second timeout |
| ClientOptions.Options.Apply | options.go:25-74 | WithConfig swaps the configuration without touching the old one; the field options edit the current configuration; WithHTTPClient and WithTimeout set their own field only |
| ClientOptions.Options.ApplyStep | client.go:29-31 | one turn of the option loop: if the object graph held what the fold state says before the option, it holds what Step of that state says after it |
| ClientOptions.Options.ApplyAll | client.go:28-31 | after the loop the options and every configuration they reach are as Folded says |
| ClientOptions.FieldOptionEditsOneField | options.go:25-53 | WithURL, WithAPIKey, WithProjectName and WithSpaceID each change one field of the current configuration and nothing else |
| ClientOptions.TransportOptionsSetOwnField | options.go:63-74 | WithHTTPClient and WithTimeout set only the HTTP client or the timeout |
| ClientOptions.NoWithConfigEditsCurrent | client.go:28-31 | options without WithConfig edit only the current configuration, by EditedBy |
| ClientOptions.FoldedAppend | client.go:28-31 | folding a + b is folding a and then b |
| ClientOptions.SingleWithConfigReaches | options.go:56-60 | options with one WithConfig are always applicable |
| ClientOptions.WithConfigReplaces | options.go:56-60 | aliasing: options before WithConfig(c) edit the loaded configuration, options after it edit c, and c becomes current |
| ClientOptions.ListApplied | options.go:90-102 | WithCursor sets the cursor, WithLimit the limit |
| ClientOptions.ListOptions.constructor | options.go:84-88 | list options start with no cursor and limit 100 |
| ClientOptions.ListOptions.Apply | options.go:90-102 | one list option as ListApplied |
| ClientOptions.ListOptions.ApplyAll | options.go:77-102 | all list options in order |
| ClientOptions.ListAppliedAllAppend | options.go:90-102 | folding a + b is folding a, then b |
| ClientOptions.ListUntouchedKept | options.go:90-102 | a field no option writes keeps its starting value |
| ClientOptions.ListLastWins | options.go:90-102 | in pre + [o] + post, o decides its field (cursor or limit) when post holds no option for that field, whatever pre holds and whatever post sets for the other field |
| Client.Request.constructor | client.go:73 | a request with the given headers |
| Client.AuthClient.Do | client.go:73-84 | the request headers become Decorated of the old headers |
| Client.DecoratedHeaders | client.go:73-84 | SDK version "0.1.0" and language "go" are always set; Authorization is "Bearer <key>" with a key and untouched without one; no other header is added or changed |
| Client.Client.constructor | client.go:60-63 | the client holds the given configuration and transport |
| Client.Client.ProjectName | client.go:92-94 | the configuration's project name |
| Client.Client.SetProjectName | client.go:97-99 | only the project name of the shared configuration changes |
| Client.ConstructionRules | client.go:33-63 | an empty URL fails with ErrMissingURL; otherwise success exactly when the API constructor accepts the validated URL; the transport carries the key and the custom HTTP client, else a default client with the timeout |
| Client.Carried | options.go:56-60 | the values of the configurations passed by WithConfig |
| Client.Construct | client.go:33-62 | after the option loop: Validate first (the configuration ends validated when valid); the result succeeds exactly when Construction does, with its error otherwise; the client is fresh, holds the same configuration object and the transport and URL of Construction |
| Client.NewClient | client.go:27-64 | the options fold over a freshly loaded configuration; the current configuration ends validated (when valid) and every other passed configuration as the fold left it; success and the error agree with Construction; the client holds the current configuration |
| OtelConfig.Config.constructor | otel/config.go:89-98 | a new Config holds the literal defaults before any environment override |
| OtelConfig.Config.EffectiveEndpoint | otel/config.go:125-135 | the loop returns Effective of the configuration |
| OtelConfig.StripTrailingSlashesShape | otel/config.go:129-131 | the trimmed endpoint is a prefix of the endpoint, what was removed is all slashes, and the result does not end in "/" |
| OtelConfig.EffectiveEndpointShape | otel/config.go:125-135 | without a space ID the endpoint is returned as is; with one it is the endpoint without any trailing slashes, then "/s/" and the space ID |
| OtelConfig.Trim | otel/config.go:177-186 | the two loops return Trimmed of the input |
| OtelConfig.TrimLeftShape | otel/config.go:179-181 | only spaces and tabs are removed from the front, and the result does not start with one |
| OtelConfig.TrimRightShape | otel/config.go:182-184 | only spaces and tabs are removed from the back, and the result does not end with one |
| OtelConfig.TrimmedShape | otel/config.go:177-186 | the result is a slice of the input with only blanks around it and no blank at either end |
| OtelConfig.TrimmedFixedPoint | otel/config.go:177-186 | a string with no blank at either end is unchanged |
| OtelConfig.TrimmedIdempotent | otel/config.go:177-186 | trimming twice is trimming once |
| OtelConfig.TrimmedChars | otel/config.go:177-186 | trimming adds no character |
| OtelConfig.FirstIndex | otel/config.go:161-162 | the position of the first separator, or the length when there is none |
| OtelConfig.PiecesAtSeparator | otel/config.go:158-174 | splitting at the first separator gives the text before it, then the pieces of the rest |
| OtelConfig.PiecesWithoutSeparator | otel/config.go:158-174 | a string without the separator is one piece |
| OtelConfig.CleanCons | otel/config.go:163-166 | cleaning keeps the trimmed non-empty pieces, one by one |
| OtelConfig.SplitStep | otel/config.go:161-169 | one loop turn at a separator: the trimmed part before it is kept when non-empty, the rest is split the same way |
| OtelConfig.SplitLast | otel/config.go:170-172 | after the last separator the trimmed rest is kept when non-empty |
| OtelConfig.SplitTrim | otel/config.go:158-174 | the loop returns SplitTrimmed of the input |
| OtelConfig.JoinPieces | otel/config.go:158-174 | joining the pieces with the separator gives the input back |
| OtelConfig.PiecesChars | otel/config.go:158-174 | no piece contains the separator, and its characters come from the input |
| OtelConfig.FirstIndexAppend | otel/config.go:161-162 | the first separator of a + sep + b is the first of a when a has one, else the one after a |
| OtelConfig.PiecesAtFirst | otel/config.go:158-174 | splitting at the first separator found by FirstIndex |
| OtelConfig.PiecesAppendSeparatorFree | otel/config.go:158-174 | a separator-free a followed by sep and b splits into a and the pieces of b |
| OtelConfig.PiecesAppend | otel/config.go:158-174 | splitting a + sep + b is splitting a and then b |
| OtelConfig.CleanAppend | otel/config.go:163-172 | cleaning distributes over concatenation |
| OtelConfig.CleanElements | otel/config.go:163-172 | every kept part is non-empty, already trimmed and made of the characters of one piece |
| OtelConfig.SplitTrimmedParts | otel/config.go:158-174 | every part of splitTrim is non-empty, trimmed, separator-free and made of characters of the input |
| OtelConfig.SplitTrimmedNoSeparator | otel/config.go:158-174 | without a separator the result is the trimmed input, or nothing when that is empty |
| OtelConfig.SplitTrimmedAppend | otel/config.go:158-174 | splitTrim of a + sep + b is splitTrim of a followed by splitTrim of b |
| OtelConfig.ParseHeaders | otel/config.go:146-155 | the loop returns ParsedHeaders of the input |
| OtelConfig.HeaderEntriesTokens | otel/config.go:149-153 | every key and value kept from comma-free parts is a non-empty trimmed token without "," or "=" |
| OtelConfig.ParsedHeadersTokens | otel/config.go:146-155 | every parsed key and value is a non-empty trimmed token without "," or "=" |
| OtelConfig.BareSplit | otel/config.go:158-174 | a bare token splits into itself, on "," and on "=" |
| OtelConfig.OnePart | otel/config.go:146-155 | a trimmed part without a comma is parsed on its own |
| OtelConfig.SingleHeader | otel/config.go:146-155 | "k=v" parses into exactly the entry k: v |
| OtelConfig.LaterDuplicateWins | otel/config.go:150-152 | a later "k=v" overrides any earlier entry for k |
| OtelConfig.MissingValueDropped | otel/config.go:150 | "k=" gives no entry, because splitTrim drops the empty value |
| OtelConfig.MissingKeyDropped | otel/config.go:150 | "=v" gives no entry |
| OtelConfig.ThreeFieldsDropped | otel/config.go:150 | "a=b=c" gives no entry: a part needs exactly two fields |
| OtelConfig.CollectorEndpoint | otel/config.go:138-143 | PHOENIX_COLLECTOR_ENDPOINT when non-empty, else OTEL_EXPORTER_OTLP_ENDPOINT |
| OtelConfig.ReadAccountEnv | otel/config.go:111-119 | a non-empty PHOENIX_PROJECT_NAME, then PHOENIX_API_KEY, then parsed PHOENIX_CLIENT_HEADERS replace the configured values, in that order, and nothing else changes |
| OtelConfig.DefaultConfig | otel/config.go:88-122 | a fresh Config holding DefaultSettings of the environment |
| OtelConfig.DefaultSettingsFixedFields | otel/config.go:89-98 | protocol infer, batching off, 5 s timeout, batch size 512, global provider on, TLS on, no service name or version, whatever the environment |
| OtelConfig.DefaultSettingsEndpoint | otel/config.go:101-110 | the collector endpoint or the local default; with a space ID an unset or local-default endpoint becomes the Phoenix Cloud endpoint; PHOENIX_COLLECTOR_ENDPOINT beats the OTel variable |
| OtelConfig.DefaultSettingsOverrides | otel/config.go:104-119 | space ID and API key come from the environment, the project name when set (else "default"), the headers parsed from PHOENIX_CLIENT_HEADERS when set (else none) |
| OtelConfig.DefaultSettingsEmptyEnvironment | otel/config.go:88-122 | with no environment the configuration is the literal defaults |
| OtelOptions.Apply | otel/options.go:13-107 | running one option's closure changes the configuration as Applied says |
| OtelOptions.ApplyAll | otel/register.go:82-85 | the option loop gives AppliedAll |
| OtelOptions.OptionSetsOneField | otel/options.go:13-107 | each option sets its own field to its argument and leaves every other field as it was |
| OtelOptions.UntouchedFieldKept | otel/register.go:82-85 | a field no option names keeps its value through the loop |
| OtelOptions.AppliedAllAppend | otel/register.go:82-85 | applying xs + ys is applying xs then ys |
| OtelOptions.LastOptionWins | otel/register.go:82-85 | the last option naming a field decides that field |
| OtelOptions.EndpointThenSpace | otel/options.go:13-26 | WithEndpoint then WithSpaceID give the endpoint without trailing slashes, "/s/", the space ID |
| OtelAttributes.Lookup | otel/attributes.go:76-173 | the model's reader of the attribute lists these constructors build: a value is found exactly when some attribute has the key, and the value found is that of the last attribute with the key |
| OtelAttributes.WithSpanKind | otel/attributes.go:77-79 | the key openinference.span.kind with the kind |
| OtelAttributes.WithInput | otel/attributes.go:82-84 | the key input.value with the input |
| OtelAttributes.WithOutput | otel/attributes.go:87-89 | the key output.value with the output |
| OtelAttributes.WithModelName | otel/attributes.go:92-94 | the key llm.model_name with the model |
| OtelAttributes.WithLLMProvider | otel/attributes.go:97-99 | the key llm.provider with the provider |
| OtelAttributes.WithToolName | otel/attributes.go:111-113 | the key tool.name with the name |
| OtelAttributes.WithSessionID | otel/attributes.go:116-118 | the key session.id with the ID |
| OtelAttributes.WithUserID | otel/attributes.go:121-123 | the key user.id with the ID |
| OtelAttributes.WithMetadata | otel/attributes.go:126-128 | the key metadata with the text |
| OtelAttributes.WithTokenCounts | otel/attributes.go:102-108 | the prompt, completion and total counts under their three keys, in that order, as integers |
| OtelAttributes.AddInt64 | otel/attributes.go:138 | Go's 64-bit `int` addition: always in the int64 range, the exact sum when it fits, otherwise the sum shifted by 2^64 |
| OtelAttributes.AddInt64Overflows | otel/attributes.go:138 | the largest int64 plus one gives the smallest, and two large token counts give a negative total |
| OtelAttributes.LLMSpanAttributes | otel/attributes.go:131-140 | kind LLM, model, provider and the token counts, with total = prompt + completion added in int64 (wrapping on overflow); six distinct keys |
| OtelAttributes.ToolSpanAttributes | otel/attributes.go:143-152 | kind TOOL and the tool name, plus tool.description only when the description is non-empty; distinct keys |
| OtelAttributes.RetrieverSpanAttributes | otel/attributes.go:155-159 | only the kind RETRIEVER |
| OtelAttributes.ChainSpanAttributes | otel/attributes.go:162-166 | only the kind CHAIN |
| OtelAttributes.AgentSpanAttributes | otel/attributes.go:169-173 | only the kind AGENT |
| OtelAttributes.ReadBack | otel/attributes.go:76-173 | in a list with distinct keys, looking up an attribute's key finds its value |
| OtelAttributes.LLMSpanReadBack | otel/attributes.go:131-140 | every value LLMSpanAttributes writes is found again under its key |
| OtelAttributes.SpanKindsDistinct | otel/attributes.go:10-27 | the eight span kind names are pairwise different |
| OtelRegister.WithScheme | otel/register.go:140-143 | the endpoint is kept when it starts with http:// or https://, else "http://" is put in front |
| OtelRegister.PortOf | otel/register.go:158-166 | the URL's port, else 443 for https, else 6006 |
| OtelRegister.TracesPath | otel/register.go:170-175 | "/v1/traces" after the URL path, an empty or "/" path counting as none |
| OtelRegister.CopyHeaders | otel/register.go:184-187 | the copy equals the configured headers |
| OtelRegister.BuildHeaders | otel/register.go:184-197 | the loop and the two writes give HeadersFor the configuration |
| OtelRegister.BuildOptions | otel/register.go:155-201 | the appends give OptionsFor the URL and headers |
| OtelRegister.ExporterBuilt | otel/register.go:138-204 | a URL parse failure gives the wrapped "invalid endpoint URL" error; otherwise the result succeeds exactly when otlptracehttp.New accepts the built options, carries those options, and otherwise is New's error as is |
| OtelRegister.CreateExporter | otel/register.go:138-204 | the result is ExporterBuilt of the configuration: the parse error, the error of otlptracehttp.New, or the built options |
| OtelRegister.ResourceAttributes | otel/register.go:207-230 | the project name always comes first; service name and version are present exactly when non-empty |
| OtelRegister.InferProtocol | otel/register.go:234-244 | gRPC exactly for port 4317, HTTP otherwise |
| OtelRegister.ProcessorFor | otel/register.go:99-108 | a batch processor with the configured timeout and size exactly when batching is on, else a simple processor |
| OtelRegister.Register | otel/register.go:81-125 | the configuration is the options over DefaultConfig, and the result is Registered, exporter errors and resource errors included |
| OtelRegister.RegisterFailures | otel/register.go:81-125 | Register fails exactly when the endpoint does not parse, otlptracehttp.New fails or resource.Merge fails, checked in that order, with "failed to create exporter: " or "failed to create resource: " around the cause |
| OtelRegister.ExporterEndpointRule | otel/register.go:138-176 | the exporter gets host:port and then the traces path |
| OtelRegister.InsecureIffHttp | otel/register.go:178-181 | the insecure option is present exactly for the http scheme |
| OtelRegister.HeadersForRule | otel/register.go:184-197 | the configured headers, then "Authorization: Bearer <key>" when there is a key and x-phoenix-project-name when there is a project, overriding configured entries of those names |
| OtelRegister.HeaderOptionIffNonEmpty | otel/register.go:199-201 | the headers option is added exactly when the header map is non-empty, and carries that map |
| OtelRegister.RegisterLastOptionWins | otel/register.go:81-125 | the registered configuration has the last option's value for its field |
| OtelRegister.RegisterDefaults | otel/register.go:81-125 | with no environment, no options and SDK constructors that succeed, the exporter targets localhost:6006/v1/traces insecurely with only the project header "default", the resource has only the project name, spans are exported one by one and the provider is made global |
| Annotations.AnnotationApplied | annotation.go:158-177 | each annotation option overwrites exactly its own field (explanation, label or annotator kind) and leaves the rest as they were |
| Annotations.AnnotationOptions.constructor | annotation.go:35 | a fresh option holder starts with no explanation, no label and no annotator kind |
| Annotations.AnnotationOptions.ApplyAll | annotation.go:36-38 | running the options in order leaves the holder equal to the left-to-right fold of the options over its old settings |
| Annotations.FoldAnnotationOptions | annotation.go:35-38 | the settings built from an empty holder are the left-to-right fold of the options |
| Annotations.AnnotationAppliedAllAppend | annotation.go:158-177 | folding a + b is folding a, then b |
| Annotations.AnnotationUntouchedKept | annotation.go:158-177 | a field (explanation, label, source) no option writes keeps its starting value |
| Annotations.AnnotationLastWins | annotation.go:158-177 | in pre + [o] + post, o decides its field when post holds no option for that field, whatever pre holds and whatever post sets for the other fields |
| Annotations.RequestResult | annotation.go:40-47 | the score is always sent; explanation and label are sent exactly when they are non-empty, and then with their value |
| Annotations.RequestKind | annotation.go:49-55 | LLM maps to the LLM wire kind, CODE to CODE, anything else (HUMAN or an empty or unknown kind) to HUMAN |
| Annotations.ResponseKind | annotation.go:192-199 | the wire kinds LLM and CODE map back to LLM and CODE, every other wire kind to HUMAN |
| Annotations.KindRoundTrip | annotation.go:49-55 | sending a kind and reading it back returns the kind itself for LLM, CODE and HUMAN, and HUMAN for any other kind |
| Annotations.SpanRequest | annotation.go:57-64 | the span request carries exactly one annotation, for the given span and name, with the mapped kind and the built result |
| Annotations.TraceRequest | annotation.go:93-100 | the trace request carries exactly one annotation, for the given trace and name, with the mapped kind and the built result |
| Annotations.CreateSpanAnnotation | annotation.go:34-67 | the request sent is the span request for the folded options, and the call's error is the send's error |
| Annotations.CreateTraceAnnotation | annotation.go:70-103 | the request sent is the trace request for the folded options, and the call's error is the send's error |
| Annotations.Present | annotation.go:202-213 | a result field is read only when the result is present and the field is set and non-null; otherwise the zero value is used |
| Annotations.SpanAnnotationOf | annotation.go:179-216 | a span annotation copies id, span, name and times, leaves the trace empty, maps the kind back and reads score, label and explanation only when present |
| Annotations.TraceAnnotationOf | annotation.go:218-255 | a trace annotation copies id, trace, name and times, leaves the span empty, maps the kind back and reads score, label and explanation only when present |
| Annotations.ConvertSpanAnnotation | annotation.go:179-183 | a nil annotation converts to nil, any other to its converted value |
| Annotations.ConvertTraceAnnotation | annotation.go:218-222 | a nil annotation converts to nil, any other to its converted value |
| Annotations.NoResultNoFields | annotation.go:179-216 | an annotation stored without a result reads back with score 0, an empty label and an empty explanation |
| Annotations.SpanAnnotationRoundTrip | annotation.go:34-67 | a span annotation that is sent and then stored as sent reads back with the same span, name, score, explanation and label, and a kind in {LLM, CODE, HUMAN} |
| Annotations.TraceAnnotationRoundTrip | annotation.go:70-103 | a trace annotation that is sent and then stored as sent reads back with the same trace, name, score, explanation and label, and a kind in {LLM, CODE, HUMAN} |
| Annotations.ListSpanAnnotations | annotation.go:106-125 | the query carries exactly the caller's span IDs; succeeds exactly when the reply is a span annotation body; then every item is converted in order; otherwise the transport error or "unexpected response type" is returned |
| Annotations.ListTraceAnnotations | annotation.go:128-147 | the query carries exactly the caller's trace IDs; succeeds exactly when the reply is a trace annotation body; then every item is converted in order; otherwise the transport error or "unexpected response type" is returned |
| Api.Decoded | prompt.go:84-92 | a transport error is returned as is, a reply of the wrong type becomes the APIError "unexpected response type", and only a body of the expected type succeeds, with that body |
| Listing.NextCursor | prompt.go:99-102 | a null next cursor becomes the empty string, any other is passed on unchanged |
| Listing.PagingFor | prompt.go:76-82 | the cursor parameter is set exactly when the cursor is non-empty and the limit exactly when it is positive, each with its value |
| Listing.FoldListOptions | prompt.go:71-74 | the settings are the left-to-right fold of the list options over the defaults |
| Listing.ConvertAll | prompt.go:94-97 | the output has one converted item per input item, in the same order |
| Listing.DefaultPaging | options.go:84-88 | with no options the request carries no cursor and a limit of 100 |
| Prompts.PromptDescription | prompt.go:63-67 | the description is the one given by the last option, or empty when there is none |
| Prompts.PromptOptions.constructor | prompt.go:126 | a fresh option holder has an empty description |
| Prompts.PromptOptions.ApplyAll | prompt.go:127-129 | after the options run, the description is the last option's, or unchanged when there are none |
| Prompts.FoldPromptOptions | prompt.go:126-129 | the description built from an empty holder is the last option's, or empty |
| Prompts.PromptOf | prompt.go:107-122 | a prompt copies id and name; description and source prompt id are read only when set and non-null, else empty |
| Prompts.ConvertPrompt | prompt.go:107-110 | a nil prompt converts to nil, any other to its converted value |
| Prompts.PromptVersionOf | prompt.go:322-341 | a version copies id, model name, provider and template type; a null description becomes empty; the template text is read from a string template and is empty for a chat template |
| Prompts.ConvertPromptVersion | prompt.go:322-325 | a nil version converts to nil, any other to its converted value |
| Prompts.FetchedVersion | prompt.go:231-280 | fetching the latest version, a version by id or a version by tag succeeds exactly when the reply is a version body, then with its converted version; otherwise the transport error or "unexpected response type" |
| Prompts.ListPrompts | prompt.go:70-105 | the paging parameters come from the folded list options; succeeds exactly when the reply is a prompts body; the items are converted in order and the next cursor is passed on |
| Prompts.ListPromptVersions | prompt.go:283-320 | the request names the prompt and carries the folded paging; succeeds exactly when the reply is a versions body; the items are converted in order and the next cursor is passed on |
| Prompts.PromptDataFor | prompt.go:132-137 | the prompt data carries the name, and the description exactly when it is non-empty |
| Prompts.StringPromptRequest | prompt.go:132-157 | a string prompt request carries the prompt data, the model name and provider, the MUSTACHE format, the template type "STR" and the string template |
| Prompts.MessageOf | prompt.go:188-195 | a chat message keeps its role and content |
| Prompts.ChatPromptRequest | prompt.go:180-215 | a chat prompt request carries the prompt data, the model name and provider, the MUSTACHE format, the template type "CHAT" and the chat messages |
| Prompts.CreatePrompt | prompt.go:125-170 | the request sent is the string prompt request with the folded description, and the result is the decoded version reply |
| Prompts.CreateChatPrompt | prompt.go:173-228 | the request sent is the chat prompt request whose messages are the given messages converted in order, and the result is the decoded version reply |
| Prompts.StringPromptRoundTrip | prompt.go:125-170 | a string prompt stored as sent reads back with its template, model name and provider; its template type is "STR", which differs from the constant "STRING" |
| Prompts.ChatPromptReadsNoTemplate | prompt.go:322-341 | a chat prompt stored as sent reads back with an empty template text and the template type "CHAT" |
| Datasets.DatasetDescription | dataset.go:35-39 | the description is the one given by the last option, or empty when there is none |
| Datasets.DatasetOptions.constructor | dataset.go:81 | a fresh option holder has an empty description |
| Datasets.DatasetOptions.ApplyAll | dataset.go:82-84 | after the options run, the description is the last option's, or unchanged when there are none |
| Datasets.DatasetOf | dataset.go:191-206 | a dataset copies id, name, example count and times; a null description becomes empty |
| Datasets.ConvertDataset | dataset.go:191-194 | a nil dataset converts to nil, any other to its converted value |
| Datasets.ListDatasets | dataset.go:42-77 | the paging parameters come from the folded list options; succeeds exactly when the reply is a datasets body; the items are converted in order and the next cursor is passed on |
| Datasets.FetchedDataset | dataset.go:164-181 | succeeds exactly when the reply is a dataset body, with only its id and name filled in; otherwise the transport error or "unexpected response type" |
| Datasets.ConvertExamplesToAPIFormat | dataset.go:142-161 | produces one input, one output and one metadata entry per example, each of them empty |
| Datasets.ZeroItems | dataset.go:142-161 | the upload columns hold one empty entry per example |
| Datasets.UploadRequest | dataset.go:89-100 | the upload carries the name, one input, output, metadata and split entry per example, the action, and the description exactly when it is non-empty |
| Datasets.CreateDataset | dataset.go:80-119 | uploads with the "create" action, the folded description and synchronous parameters; succeeds exactly when the reply is an upload body, with the returned id and the given name |
| Datasets.AddDatasetExamples | dataset.go:122-139 | uploads with the "append" action, no description and synchronous parameters; the call's error is the send's error |
| Datasets.UploadsDiffer | dataset.go:80-139 | a create upload and an append upload for the same examples differ only in action and description |
| Projects.ProjectApplied | project.go:124-135 | each project option overwrites exactly its own field (name or description) |
| Projects.ProjectOptions.constructor | project.go:79 | a fresh option holder has an empty name and description |
| Projects.ProjectOptions.ApplyAll | project.go:80-82 | running the options in order leaves the holder equal to the left-to-right fold of the options over its old settings |
| Projects.ProjectAppliedAllAppend | project.go:124-135 | folding a + b is folding a, then b |
| Projects.ProjectUntouchedKept | project.go:124-135 | without a name (description) option the name (description) keeps its starting value |
| Projects.ProjectLastWins | project.go:124-135 | in pre + [o] + post, o decides its field (name or description) when post holds no option for that field, whatever follows for the other field |
| Projects.ProjectOf | project.go:137-149 | a project copies id and name, reads the description only when set and non-null, and has zero times |
| Projects.ConvertProject | project.go:137-140 | a nil project converts to nil, any other to its converted value |
| Projects.ListProjects | project.go:20-55 | the paging parameters come from the folded list options; succeeds exactly when the reply is a projects body; the items are converted in order and the next cursor is passed on |
| Projects.FetchedProject | project.go:58-75 | succeeds exactly when the reply is a project body, with only its id and name filled in; otherwise the transport error or "unexpected response type" |
| Projects.CreateProjectRequest | project.go:84-89 | the request carries the given name, and the description exactly when it is non-empty |
| Projects.CreateProject | project.go:78-105 | the request sent is built from the name and the folded options, and the result is the decoded project reply |
| Projects.CreateProjectIgnoresWithName | project.go:78-105 | a name option passed to project creation does not change the request: the name argument wins |
| Spans.SpanApplied | span.go:90-102 | each span option overwrites exactly its own field (cursor or limit) |
| Spans.SpanOptions.constructor | span.go:26-28 | a fresh span option holder has no cursor and a limit of 100 |
| Spans.SpanOptions.ApplyAll | span.go:29-31 | running the options in order leaves the holder equal to the left-to-right fold of the options over its old settings |
| Spans.SpanPaging | span.go:36-41 | the cursor is sent exactly when non-empty and the limit exactly when positive, each with its own value |
| Spans.SpanAppliedAllAppend | span.go:29-31 | folding a + b is folding a, then b |
| Spans.SpanLimitRule | span.go:26-41 | without a limit option the request asks for 100 spans; in pre + [WithSpanLimit(n)] + post with no limit option in post, a positive n is sent as is and a zero or negative n leaves the limit out, whatever cursor options follow |
| Spans.DefaultLimitKept | span.go:26-31 | options that never set the limit keep the limit at its starting value (100 for the defaults) |
| Spans.SpanOf | span.go:104-127 | a span copies name, kind, status code, times, trace id and span id; id and status message are read when set; the parent id only when set and non-null |
| Spans.ConvertSpan | span.go:104-107 | a nil span converts to nil, any other to its converted value |
| Spans.GetSpans | span.go:25-64 | the request names the project and carries the span paging; succeeds exactly when the reply is a spans body; the items are converted in order and the next cursor is passed on |
| Experiments.ExperimentOf | experiment.go:73-93 | an experiment copies its ids, counts, repetitions and times; a null project name becomes empty |
| Experiments.ConvertExperiment | experiment.go:73-76 | a nil experiment converts to nil, any other to its converted value |
| Experiments.ListExperiments | experiment.go:26-63 | the request names the dataset and carries the folded paging; succeeds exactly when the reply is an experiments body; the items are converted in order and the next cursor is passed on |
| Evals.ParseAnnotatorKind | evals/evaluator.go:204-226 | "llm"/"LLM" parse to LLM, "code"/"CODE" to CODE, and every other source string to HUMAN |
| Evals.MetadataString | evals/evaluator.go:231-233 | a metadata entry is read exactly when the metadata is a map holding that key with a string value |
| Evals.InferAnnotatorKind | evals/evaluator.go:229-248 | the metadata "kind" decides LLM, CODE or HUMAN for its two spellings each; anything else (no map, no kind, not a string, another word) gives CODE |
| Evals.DefaultsDiffer | evals/evaluator.go:205-248 | an unknown kind word is inferred as CODE from metadata but parsed as HUMAN from a feedback source |
| Evals.BuildAnnotationResult | evals/evaluator.go:195-202 | the score is always sent, the explanation exactly when the reason is non-empty, and no label |
| Evals.RecordedAnnotation | evals/evaluator.go:128-146 | a recorded score becomes an annotation for the span with its name, the inferred kind, the score, the reason as explanation when non-empty, and the metadata "label" when it is a string |
| Evals.Kept | evals/evaluator.go:122-126 | only scores without an error are kept, and every kept score comes from the input |
| Evals.RecordedIsKept | evals/evaluator.go:120-149 | the annotations recorded are exactly the kept scores, one for one and in order |
| Evals.RecordedEmptyIffAllErrored | evals/evaluator.go:151-153 | nothing is recorded exactly when every score carries an error |
| Evals.RecordedAppend | evals/evaluator.go:120-149 | recording two lists of scores one after the other gives the annotations of each, concatenated |
| Evals.RecordScoresToPhoenix | evals/evaluator.go:119-160 | no request is sent (and no error returned) exactly when nothing is left to record; otherwise one request with every kept annotation, and the send's error |
| Evals.ScoreFor | evals/evaluator.go:78-85 | a metric that succeeds contributes its score; one that fails contributes a score with only its name and the error text |
| Evals.RunMetrics | evals/evaluator.go:74-87 | every metric is run, none is dropped: one score per metric, in order |
| Evals.RecordResultsAfter | evals/evaluator.go:55-69 | results are recorded by default; with options, the last option decides |
| Evals.Evaluator.constructor | evals/evaluator.go:45-50 | a new evaluator records results |
| Evals.Evaluator.WithOptions | evals/evaluator.go:63-69 | an evaluator built with options records results exactly as the last option says, and by default without options |
| Evals.Evaluator.Evaluate | evals/evaluator.go:72-105 | never fails; one score per metric with the given duration; records only when recording is on and a span id is given; a failed recording shows up as the "record_error" metadata entry and nowhere else |
| Evals.FeedbackRequestFor | evals/evaluator.go:108-116 | a span id wins over a trace id; each sends one annotation with the parsed source kind and the built result; with neither id nothing is sent |
| Evals.AddFeedbackScore | evals/evaluator.go:108-192 | the request sent is the feedback request, and the error is the send's error, or none when nothing was sent |
| Tracing.ValuesUnderAppend | llmops/trace.go:79-123 | reading an attribute key over two batches of writes gives the values of the first batch and then of the second |
| Tracing.StringValues | llmops/trace.go:115-123 | one string attribute value per string, in order |
| Tracing.TagAttrs | llmops/trace.go:115-123 | one tag attribute per tag, under the tags key, in order |
| Tracing.TagAttrsReadBack | llmops/trace.go:115-123 | reading back the tags key gives the tags in order, and every other key reads nothing |
| Tracing.BytesText | llmops/trace.go:230-231 | a byte slice becomes the text with one character per byte, each with the byte's code |
| Tracing.ToString | llmops/trace.go:223-238 | nil becomes the empty string, a string itself, bytes their text, and any other value its JSON encoding, or the empty string when encoding fails |
| Tracing.ToStringKeepsStrings | llmops/trace.go:223-238 | a string value is written as is, whatever the JSON encoder does |
| Tracing.OptionalString | llmops/trace.go:241-256 | an optional feedback attribute adds one attribute, with its key and the value, exactly when the value is non-empty, and none otherwise |
| Tracing.FeedbackAttrs | llmops/trace.go:241-256 | a feedback event carries the name and the score first, then one attribute for each of reason, category and source that is non-empty |
| Tracing.OptionalStringUnder | llmops/trace.go:246-254 | an optional attribute reads back its value under its own key exactly when the value is non-empty |
| Tracing.FeedbackAttrsSplit | llmops/trace.go:241-256 | the values of the feedback attributes under any key are those of the five parts, in order |
| Tracing.FeedbackAttrsReadBack | llmops/trace.go:241-256 | the feedback event reads back its name, its score, and its reason, category and source exactly when each is non-empty |
| Tracing.MapSpanType | llmops/span.go:71-88 | LLM, tool, agent, retrieval and guardrail map to their OpenInference kinds, every other type to CHAIN |
| Tracing.NeverEmbeddingOrReranker | llmops/span.go:71-88 | no span type maps to the EMBEDDING or RERANKER kinds |
| Tracing.WrapperKeysDiffer | otel/attributes.go:30-72 | the attribute keys the wrappers write are pairwise distinct, so reading one never sees another |
| Tracing.TraceStartReadBack | llmops/trace.go:25-50 | a started trace reads back its input exactly when one was given, its tags in order, and its thread id as the session id exactly when non-empty |
| Tracing.TraceStartUnder | llmops/trace.go:25-50 | the values written at trace start under any key are those of input, metadata, tags and session id, in that order |
| Tracing.MetadataUnder | llmops/trace.go:101-112 | metadata is written only under the metadata key, and only when given and encodable |
| Tracing.EndReadBack | llmops/trace.go:142-176 | ending writes the output exactly when one was given, and the metadata exactly when given and encodable |
| Tracing.UsageUnder | llmops/span.go:63-65 | token usage writes the prompt, completion and total counts under their keys, and nothing without usage |
| Tracing.SpanStartUnder | llmops/span.go:28-68 | the values written at span start under any key are those of kind, input, metadata, tags, model, provider and usage, in that order |
| Tracing.SpanHeadUnder | llmops/span.go:39-56 | the values written by the first four parts of a span start under any key are those of kind, input, metadata and tags |
| Tracing.SpanStartReadBack | llmops/span.go:28-68 | a started span reads back its mapped kind exactly when a type was given, its tags in order, and its total token count exactly when usage was given |
| Tracing.SingleValues | llmops/trace.go:79-112 | an attribute list of at most one entry reads back that entry's value under its key, and nothing under any other |
| Tracing.ContextWithTrace | llmops/trace.go:200-209 | a context carrying a trace returns that trace and keeps the span it carried |
| Tracing.ContextWithSpan | llmops/trace.go:211-220 | a context carrying a span returns that span and keeps the trace it carried |
| Tracing.TraceWrapper.constructor | llmops/trace.go:25-50 | a new trace starts now, is not ended, and appends exactly the trace start attributes to its span |
| Tracing.TraceWrapper.AddTags | llmops/trace.go:40-44 | appends one tag attribute per tag and changes nothing else |
| Tracing.TraceWrapper.ID | llmops/trace.go:53-55 | the trace id is the underlying span's trace id |
| Tracing.TraceWrapper.SetInput | llmops/trace.go:79-88 | appends exactly one input attribute with the value as text and changes nothing else |
| Tracing.TraceWrapper.SetOutput | llmops/trace.go:91-99 | appends exactly one output attribute with the value as text and changes nothing else |
| Tracing.TraceWrapper.SetMetadata | llmops/trace.go:102-112 | appends the encoded metadata, or nothing when encoding fails, and changes nothing else |
| Tracing.TraceWrapper.AddTag | llmops/trace.go:115-123 | appends exactly one tag attribute and changes nothing else |
| Tracing.TraceWrapper.StartSpan | llmops/trace.go:63-76 | the child span belongs to this trace, has no parent span, starts now, and its context carries it |
| Tracing.TraceWrapper.AddFeedbackScore | llmops/trace.go:126-139 | adds exactly one feedback event carrying the feedback attributes and no attribute |
| Tracing.TraceWrapper.End | llmops/trace.go:142-176 | writes the end attributes, records the error when one is given, ends the span and fixes the duration at end minus start |
| Tracing.TraceWrapper.Duration | llmops/trace.go:186-194 | an ended trace lasts from start to end; a running one from start to now |
| Tracing.SpanWrapper.constructor | llmops/span.go:28-68 | a new span keeps its trace and parent ids and its type, starts now, is not ended, and appends exactly the span start attributes |
| Tracing.SpanWrapper.WriteStart | llmops/span.go:39-65 | appends exactly the span start attributes and changes nothing else |
| Tracing.SpanWrapper.AddTags | llmops/span.go:52-56 | appends one tag attribute per tag and changes nothing else |
| Tracing.SpanWrapper.ID | llmops/span.go:91-93 | the span id is the underlying span's span id |
| Tracing.SpanWrapper.TraceID | llmops/span.go:96-102 | the trace id is the one the span was started with, or the underlying span's trace id when that is empty |
| Tracing.SpanWrapper.SetInput | llmops/span.go:136-144 | appends exactly one input attribute with the value as text and changes nothing else |
| Tracing.SpanWrapper.SetOutput | llmops/span.go:147-155 | appends exactly one output attribute with the value as text and changes nothing else |
| Tracing.SpanWrapper.SetMetadata | llmops/span.go:158-167 | appends the encoded metadata, or nothing when encoding fails, and changes nothing else |
| Tracing.SpanWrapper.SetModel | llmops/span.go:170-177 | appends exactly the model name attribute and changes nothing else |
| Tracing.SpanWrapper.SetProvider | llmops/span.go:180-187 | appends exactly the provider attribute and changes nothing else |
| Tracing.SpanWrapper.SetUsage | llmops/span.go:190-202 | appends exactly the three token count attributes and changes nothing else |
| Tracing.SpanWrapper.AddTag | llmops/span.go:205-212 | appends exactly one tag attribute and changes nothing else |
| Tracing.SpanWrapper.StartSpan | llmops/span.go:120-133 | the child span keeps this span's trace, has this span as parent, starts now, and its context carries it |
| Tracing.SpanWrapper.AddFeedbackScore | llmops/span.go:215-228 | adds exactly one feedback event carrying the feedback attributes and no attribute |
| Tracing.SpanWrapper.End | llmops/span.go:231-265 | writes the end attributes, records the error when one is given, ends the span and fixes the duration at end minus start |
| Tracing.SpanWrapper.Duration | llmops/span.go:275-283 | an ended span lasts from start to end; a running one from start to now |
| LlmopsProvider.PhoenixOptionsFor | llmops/provider.go:61-77 | the REST client options built from the common configuration never include a whole-configuration option |
| LlmopsProvider.SetupAfterSnoc | llmops/provider.go:61-82 | applying one more client option after a list is the same as applying it to the result of the list |
| LlmopsProvider.FoldWithoutConfig | llmops/provider.go:79-82 | folding options that carry no configuration always completes, and changes only the current configuration, the HTTP client and the timeout, as the option-by-option setup says |
| LlmopsProvider.NewClientSetup | llmops/provider.go:61-77 | the client is set up with the endpoint, the workspace as space id, the API key, the HTTP client and the timeout, each only when given, and otherwise keeps what the environment gave |
| LlmopsProvider.OtelOptionsFor | llmops/provider.go:85-108 | the OTel options start by turning batching on and the global provider off, and end with the service name |
| LlmopsProvider.AppliedAllSnoc | llmops/provider.go:85-101 | applying one more OTel option after a list is the same as applying it to the result of the list |
| LlmopsProvider.NewOtelSettings | llmops/provider.go:85-108 | the tracer is set up with batching on, the global provider off, the endpoint, the workspace as space id, the API key and the project name each only when given, and the service name |
| LlmopsProvider.OtelHead | llmops/provider.go:85-88 | the two fixed leading OTel options set exactly batching and the global-provider flag |
| LlmopsProvider.AppliedAllWhen | llmops/provider.go:89-101 | an OTel option appended only under a condition is applied exactly when the condition holds |
| LlmopsProvider.NewSharesEndpoint | llmops/provider.go:57-114 | an endpoint or workspace given in the configuration reaches both the REST client and the tracer |
| LlmopsProvider.Provider.constructor | llmops/provider.go:116-123 | the provider keeps the client, the tracer provider, the project name and the service name, and records that batching is on |
| LlmopsProvider.Provider.StartTrace | llmops/provider.go:142-155 | the trace wraps the tracer's new span, starts now, writes exactly the trace start attributes, and is stored in the returned context; never fails |
| LlmopsProvider.Provider.StartSpan | llmops/provider.go:158-183 | the span wraps the tracer's new span with the parent trace and span taken from the context, writes exactly the span start attributes, and is stored in the returned context; never fails |
| LlmopsProvider.Provider.TraceFromContext | llmops/provider.go:186-192 | returns the context's trace, and reports whether there is one |
| LlmopsProvider.Provider.SpanFromContext | llmops/provider.go:195-201 | returns the context's span, and reports whether there is one |
| LlmopsProvider.Provider.AddFeedbackScore | llmops/provider.go:227-235 | fails with "no active trace" exactly when the context holds neither span nor trace; otherwise adds one feedback event, with name and score only, to the span if there is one, else to the trace |
| LlmopsProvider.Provider.Evaluate | llmops/provider.go:204-224 | never fails and never records: one score per metric, in order, with the given duration and no metadata |
| LlmopsProvider.Provider.CreatePrompt | llmops/provider.go:238-273 | a missing model name, then a missing model provider, is refused before any request; otherwise the string prompt is created with the description, and the result has no version |
| LlmopsProvider.Provider.GetPrompt | llmops/provider.go:280-311 | with a version it looks the version up by tag, and on failure by version id; without one it fetches the latest; a found prompt has the asked name and its version id as version |
| LlmopsProvider.Provider.ListPrompts | llmops/provider.go:314-329 | succeeds exactly when the reply is a prompts body, with one summary per prompt in order; otherwise the error |
| LlmopsProvider.Provider.CreateDataset | llmops/provider.go:331-353 | uploads an empty dataset with the name and the description; succeeds exactly when the reply is an upload body, with the returned id and the given name |
| LlmopsProvider.Provider.GetDataset | llmops/provider.go:356-376 | on a listed page, returns the first dataset with the name, and "dataset not found" exactly when no dataset on the page has it; a failed listing gives its error |
| LlmopsProvider.Provider.GetDatasetByID | llmops/provider.go:379-393 | succeeds exactly when the reply is a dataset body, with its id and name; otherwise the error |
| LlmopsProvider.Provider.AddDatasetItems | llmops/provider.go:396-408 | each item becomes one example with its input, expected output and metadata, in order, and is appended to the named dataset; the error is the send's error |
| LlmopsProvider.Provider.ListDatasets | llmops/provider.go:411-429 | succeeds exactly when the reply is a datasets body, with one dataset per listed dataset in order; otherwise the error |
| LlmopsProvider.Provider.DeleteDataset | llmops/provider.go:500-502 | deletes the given dataset id and returns the send's error |
| LlmopsProvider.Provider.CreateProject | llmops/provider.go:432-455 | creates the project with the name and, when non-empty, the description; succeeds exactly when the reply is a project body, with its id and name |
| LlmopsProvider.Provider.GetProject | llmops/provider.go:458-471 | succeeds exactly when the reply is a project body, with its id and name; otherwise the error |
| LlmopsProvider.Provider.ListProjects | llmops/provider.go:474-491 | succeeds exactly when the reply is a projects body, with one project per listed project in order; otherwise the error |
| LlmopsProvider.Provider.SetProject | llmops/provider.go:494-497 | the project name becomes the given one, the client's configuration is left alone, and no error is returned |
| LlmopsProvider.Provider.CreateAnnotation | llmops/provider.go:505-534 | a span id wins over a trace id and each sends one annotation with the mapped source, explanation and label; with neither id nothing is sent and an error is returned |
| LlmopsProvider.Provider.ListAnnotations | llmops/provider.go:537-561 | queries exactly `opts.SpanIDs` when span ids are given, then exactly `opts.TraceIDs` when trace ids are given and the span call did not fail, and sends no other query; fails with the first failing call's error; otherwise the converted span annotations, then the trace annotations |
| LlmopsProvider.New | llmops/provider.go:57-124 | succeeds exactly when both the client and the tracer provider are built; the client error comes first; the provider holds the client built from the mapped options, the registered tracer provider, the project name and the service name |
| LlmopsProvider.NoCarriedConfigs | llmops/provider.go:61-77 | options without a whole-configuration option carry no configuration |
| LlmopsProvider.FeedbackTarget | llmops/provider.go:227-235 | feedback touches at most one span, and none exactly when the context holds neither span nor trace |
| LlmopsProvider.ParentTraceID | llmops/provider.go:162-171 | the parent trace id is the context trace's id when non-empty, else the context span's trace id, else empty |
| LlmopsProvider.ParentSpanID | llmops/provider.go:162-171 | the parent span id is the context span's id, or empty without one |
| LlmopsProvider.NestedSpanKeepsTrace | llmops/provider.go:158-183 | a span started in a context keeps its trace as the parent trace for the next span, and becomes its parent span |
| LlmopsProvider.CreatedPromptRoundTrip | llmops/provider.go:238-311 | a created prompt stored as sent reads back with its id, name, template and model; created it has no version, fetched it has its id as version |
| LlmopsProvider.FirstNamedUnique | llmops/provider.go:363-374 | there is only one first dataset with a given name |
| LlmopsProvider.SourceFor | llmops/provider.go:506-515 | the kind sent is LLM exactly for the llmops LLM kind, CODE exactly for the Code kind, and HUMAN for every other kind |
| LlmopsProvider.KindOf | llmops/provider.go:567-575 | the kind read back is LLM exactly for "LLM", Code exactly for "CODE", and Human for any other phoenix kind; never an unknown kind |
| LlmopsProvider.ConvertAnnotation | llmops/provider.go:563-588 | every field is copied; the source is one of the three known llmops kinds, and for a phoenix kind of HUMAN, LLM or CODE sending it back gives the same phoenix kind; any phoenix kind other than LLM and CODE reads as Human |
| LlmopsProvider.KindRoundTrip | llmops/provider.go:505-588 | sending a kind and reading it back gives the kind itself for the three known kinds, and HUMAN for any other |
| LlmopsProvider.AnnotationOptionsSettle | llmops/provider.go:517-525 | the options built from an annotation set exactly its source, explanation and label |
| LlmopsProvider.SpanListed | llmops/provider.go:540-548 | listed span annotations carry no trace id |
| LlmopsProvider.TraceListed | llmops/provider.go:550-558 | listed trace annotations carry no span id |
| LlmopsProvider.SpanAnnotationRoundTrip | llmops/provider.go:505-588 | a span annotation created and stored as sent lists back as itself, up to the server's id and times, an empty trace id and the normalised kind |
| LlmopsProvider.TraceAnnotationRoundTrip | llmops/provider.go:505-588 | a trace annotation created and stored as sent lists back as itself, up to the server's id and times and the normalised kind |

## Left out

- Network and HTTP: the generated API client, `http.Client.Do`, the OTLP exporter, span processors and the SDK `TracerProvider` are not modelled; each reply or returned error is an input of the operation that uses it.
- `url.Parse`, `otlptracehttp.New`, `resource.Merge`, `resource.Default` and `semconv` are foreign library calls. The parsed URL comes from a parser parameter. The resource is the attribute list handed to `resource.NewSchemaless`. The errors of `otlptracehttp.New` and `resource.Merge` are the `SdkErrors` input of Register.
- `json.Marshal` is a function parameter that may fail, so what it encodes a value as is not modelled.
- `time.Now`/`time.Since` become `now` and `elapsed` parameters; nothing forces the clock to be monotonic.
- Go's `int` is taken to be 64 bits wide. The one sum the core computes, the total token count, wraps around (`OtelAttributes.AddInt64`); the other integers (counts, limits, status codes) are only carried or compared, so they are `int` without a range.
- Scores are `real`, only carried and never computed on; IEEE-754 behaviour is not modelled.
- The `sync.RWMutex` locks in the trace and span wrappers are left out: the model is single-threaded.
- The `init()` registration with the omniobserve registry and omniobserve's option functions (`ApplySpanOptions` and the rest) are not modelled; the provider takes the already-applied option records.
- OpenTelemetry's rule for repeated attribute keys is library behaviour: reads of the attribute log return every value written under a key, in order.
- `Tracing.OtelSpan` stands in for the SDK span and carries no source behaviour of its own.
- The Go getters that only return a field — `traceWrapper.Name`, `spanWrapper.Name`, `ParentSpanID`, `Type`, `Provider.Name`, `TracerProvider.Config`, `Client.Config`, `Client.API`, `traceWrapper.EndTime`, `spanWrapper.EndTime` — are the fields themselves. `traceWrapper.End` and `spanWrapper.End` state what `EndTime` then returns.
- `traceFromContext` and `spanFromContext` are the slot reads `Tracing.TraceFromContext` and `Tracing.SpanFromContext`, with no contract of their own. `Tracing.ContextWithTrace` and `Tracing.ContextWithSpan` state what they return.
- `Provider.Close` and `TracerProvider.Shutdown` only shut down the SDK provider, which is not modelled.
- `DeleteProject`, `DeleteSpan`, `DeleteTrace`, `DeleteExperiment` and the client's `DeleteDataset` make a single API call with their argument and return its error. They have no logic beyond that and are not modelled separately; `Provider.DeleteDataset` stands for the pattern.
- `WithProtocol` is stored but has no effect: `createExporter` builds an HTTP exporter whatever the protocol is, so the model ignores it there too. `inferProtocol` is modelled on its own.
- Header names are not canonicalised the way `http.Header.Set` does; the model treats header names as plain strings.
- OtelConfig.SplitTrim: the separator is a single character. Every caller passes "," or "=", so the general multi-character separator of `strings.Index` is not modelled.
- Go's distinction between a nil map and an empty map (`WithHeaders(nil)`, nil metadata) is not modelled: metadata is an `Option`, headers are a `map`. Nil pointers are not modelled either: `ClientOptions.HttpClient` and `ClientConfig.Config` values are never nil, so `WithHTTPClient(nil)` (which NewClient treats like no custom client, falling back to the default client with the options' timeout) and `WithConfig(nil)` (which makes Validate dereference nil) are not represented.
- Datasets.ConvertExamplesToAPIFormat: the Go code creates the three slices but never fills them (each entry is left at its zero value), so the example data is not uploaded. The model states exactly that: one empty entry per example.
- Tracing.BytesText: `string(b)` is modelled as one character per byte; UTF-8 decoding of multi-byte sequences is not modelled.
- LlmopsProvider.ConvertAnnotation: the nil case of `convertAnnotation` cannot arise, because the client's list calls never return nil entries.
- Evals.RecordScoresToPhoenix: requires that every non-errored score's metadata be nil or a map. The Go code's unchecked type assertion at evals/evaluator.go:142 panics otherwise, and a panic is not modelled.
- Evals.Evaluator.Evaluate: carries the same requirement, for the same reason, when it records.
- LlmopsProvider.Provider.GetDataset: searches only the first page returned by `ListDatasets` (default limit 100), as the Go code does; a dataset beyond it is reported as not found.
- The evaluator's and the wrappers' references to the provider and client are not modelled; the client calls they make appear as the request each operation returns.

## Notes

- `CreatePrompt` sends the template type "STR", but the SDK's own constant `PromptTemplateTypeString` is "STRING". A string prompt therefore reads back with a template type that matches neither constant (`Prompts.StringPromptRoundTrip`).
- The REST configuration's `Validate` removes one trailing '/' (`strings.TrimSuffix`). The OTel `EffectiveEndpoint` removes all of them (`ClientConfig.NormalisersDiffer`).
- `Validate` rewrites `URL` in place, so a second call appends the space segment again (`ClientConfig.ValidatedTwiceAppendsAgain`).
