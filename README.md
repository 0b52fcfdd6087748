# Vertex AI Model Garden MaaS adapter, modelled in Dafny

This project models the common base of LangChain's Vertex AI "Model-as-a-Service" adapters
(`model_garden_maas/_base.py`). These adapters send chat completions for third-party models
(Llama, Mistral) to regional Vertex AI endpoints. The model covers:

- **Families** (`families.dfy`): the two model families, and the resolver that lower-cases a model
  name and looks it up in two closed allow-lists (`VertexMaaSModelFamily._missing_`). It also
  covers the way Python's `Enum` call reaches that resolver: member values are looked up first.
- **Garden** (`garden.dfy`): the validated model configuration (`validate_environment_model_garden`):
  - a Mistral name is split at its first `@`, and the full name is kept for addressing;
  - the parameter normaliser (`_enrich_params`);
  - the endpoint path (`_get_url_part`) and the base URL (`get_url`).
- **Http** (`http.dfy`): the error check applied to every response (`_raise_on_error`,
  `_araise_on_error`), and the set of exceptions that the retry decorator retries.
- **Dispatch** (`dispatch.dfy`): one completion call, synchronous or asynchronous:
  - defaulting `stream`, choosing the path and headers, and sending the normalised parameters;
  - reading the reply, either as one JSON body or as server-sent events up to the `[DONE]`
    sentinel (`iter_sse`, `_aiter_sse`).
- **Supporting modules:**
  - `strings.dfy`: Python's `str.lower` on ASCII, `str.split` and `sep.join` with one-character
    separators, and the decimal rendering of non-negative integers;
  - `values.dfy`: JSON-like values and Python truthiness;
  - `errors.dfy`: the exceptions, as values;
  - `wrappers.dfy`: `Option` and `Result`.

The HTTP client and the server are parameters:

- `server: Request -> Exchange` gives the response and its events for a request.
- `decode: string -> Option<Value>` stands for `.json()`; `None` means the text does not parse.

A streaming reply is modelled as the whole sequence of records it yields, together with how it
ended: at the sentinel, at the end of the events, or on an exception.

The model follows the code where it differs from what the names and docstrings suggest:

- **Sync path has no retry.** Despite its name, the synchronous `completion_with_retry` has no
  retry decorator at all (`_base.py:193-218`); only the asynchronous call is retried.
- **Async streaming retries only the generator's creation.** The docstring of
  `acompletion_with_retry` (`_base.py:167`) speaks of retrying the completion call. The retry
  decorator wraps a coroutine that returns the `_aiter_sse(...)` generator, and that generator
  opens its connection only when it is iterated, so a transport failure while streaming is not
  retried (`_base.py:170-190`).
- **The two paths order their steps differently.**
  - The synchronous call defaults `stream` before normalising the parameters.
  - The asynchronous call normalises first, then defaults `stream` inside the retried coroutine.
  - `Dispatch.DefaultCommutesWithEnrichment` and `Dispatch.RequestDeterminate` show that both
    orders send the same request.

In one place the model departs from the code on purpose:

- **The validator uses the corrected resolver.** The source's validator calls the `Enum`
  (`_base.py:112`), which also accepts the member values "1" and "2" (see "## Findings").
  `Garden.ValidateEnvironment` resolves through the allow-lists alone. The validator as written
  is `Garden.ValidateAsWritten`, and `Garden.AsWrittenAcceptsMemberValue` shows the difference.

## Model

All source paths are under `libs/vertexai/langchain_google_vertexai/model_garden_maas/`; below they are written out in full.

| member | source | states |
|---|---|---|
| Families.ResolveFamily | libs/vertexai/langchain_google_vertexai/model_garden_maas/_base.py:84-95 | LLAMA exactly when the lower-cased name is in the Llama list; MISTRAL exactly when it is in the Mistral list; otherwise an error carrying the lower-cased name |
| Families.ResolveIgnoresCase | libs/vertexai/langchain_google_vertexai/model_garden_maas/_base.py:86 | two names that differ only in ASCII letter case resolve to the same family, or to the same error |
| Families.ResolveLlama | libs/vertexai/langchain_google_vertexai/model_garden_maas/_base.py:87-92 | the listed Llama name resolves to LLAMA |
| Families.ResolveMistralNames | libs/vertexai/langchain_google_vertexai/model_garden_maas/_base.py:90-94 | "mistral-nemo@2407" and "mistral-large@2407" resolve to MISTRAL |
| Families.ResolveUpperCase | libs/vertexai/langchain_google_vertexai/model_garden_maas/_base.py:86-94 | an upper-case spelling of a listed name resolves like the name itself |
| Families.ResolveMixedCase | libs/vertexai/langchain_google_vertexai/model_garden_maas/_base.py:86-94 | a mixed-case spelling of a listed name resolves like the name itself |
| Families.ResolveRejectsUnlisted | libs/vertexai/langchain_google_vertexai/model_garden_maas/_base.py:95 | a Mistral name without its version suffix is rejected, with the name in the error |
| Families.FamilyFromValue | libs/vertexai/langchain_google_vertexai/model_garden_maas/_base.py:78-95 | the Enum call as written: a member value gives its member directly; any other value goes to the resolver |
| Families.MemberValuesBypassAllowLists | libs/vertexai/langchain_google_vertexai/model_garden_maas/_base.py:78-95 | "1" and "2" are accepted as LLAMA and MISTRAL, although the resolver rejects both |
| Strings.Lower | libs/vertexai/langchain_google_vertexai/model_garden_maas/_base.py:86 | the result has the same length; ASCII capitals A-Z become their lower-case letters, every other character is kept, and no ASCII capital is left |
| Strings.Decimal | libs/vertexai/langchain_google_vertexai/model_garden_maas/_base.py:47 | the rendering of a status code is one or more decimal digits |
| Strings.LowerIgnoresCase | libs/vertexai/langchain_google_vertexai/model_garden_maas/_base.py:86 | strings that differ only in ASCII letter case lower-case to the same string |
| Strings.Split | libs/vertexai/langchain_google_vertexai/model_garden_maas/_base.py:115 | there is at least one piece; no piece contains the separator; the first piece is the text up to the first separator; there is exactly one piece when the separator is absent |
| Strings.SplitJoin | libs/vertexai/langchain_google_vertexai/model_garden_maas/_base.py:115 | splitting a join of separator-free pieces gives back the pieces |
| Strings.JoinSplit | libs/vertexai/langchain_google_vertexai/model_garden_maas/_base.py:115 | joining the pieces of a split gives back the string |
| Strings.DecimalRoundTrip | libs/vertexai/langchain_google_vertexai/model_garden_maas/_base.py:47 | reading back the decimal rendering of a status code gives the code |
| Garden.MistralNameHasAt | libs/vertexai/langchain_google_vertexai/model_garden_maas/_base.py:90 | every name that resolves to MISTRAL contains `@` |
| Garden.ValidateEnvironment | libs/vertexai/langchain_google_vertexai/model_garden_maas/_base.py:109-118 | fails exactly when the resolver fails, with the same error; otherwise sets the resolved family and keeps the region and project; a Mistral configuration keeps the whole name as its full name, and its model name is the `@`-free text before the first `@`; a Llama configuration keeps the name and has no full name |
| Garden.Configure | libs/vertexai/langchain_google_vertexai/model_garden_maas/_base.py:113-117 | the family, region and project are kept; a Mistral model name is the `@`-free prefix of the name that ends at its first `@` (or is the whole name), and the full name is the whole name; a Llama name is kept as it is, with no full name |
| Garden.ValidateAsWritten | libs/vertexai/langchain_google_vertexai/model_garden_maas/_base.py:109-118 | the validator as written: fails exactly when the Enum call fails, otherwise configures the name for the family the Enum call gives; agrees with `ValidateEnvironment` on every name that is not a member value |
| Garden.AsWrittenAcceptsMemberValue | libs/vertexai/langchain_google_vertexai/model_garden_maas/_base.py:109-118 | the validator as written accepts "2" as a Mistral model named and addressed "2", which the allow-lists reject |
| Garden.ValidateVersioned | libs/vertexai/langchain_google_vertexai/model_garden_maas/_base.py:114-117 | a Mistral name whose first `@` follows a given stem validates to that stem plus the whole name |
| Garden.ValidateMistralLarge | libs/vertexai/langchain_google_vertexai/model_garden_maas/_base.py:112-117 | "mistral-large@2407" gives the model name "mistral-large" and the full name "mistral-large@2407" |
| Garden.ValidateKeepsCase | libs/vertexai/langchain_google_vertexai/model_garden_maas/_base.py:112-117 | "Mistral-Large@2407" gives the model name "Mistral-Large": only the lookup is lower-cased |
| Garden.EnrichmentIsUnique | libs/vertexai/langchain_google_vertexai/model_garden_maas/_base.py:120-125 | the normalised parameters are determined by the input and the model name |
| Garden.EnrichParams | libs/vertexai/langchain_google_vertexai/model_garden_maas/_base.py:120-125 | the result drops `safe_prompt` and sets `model` to the model name; every other key keeps its value; no other key is added |
| Garden.UrlPartStreamDependence | libs/vertexai/langchain_google_vertexai/model_garden_maas/_base.py:127-135 | the path depends on the stream flag exactly when the family is Mistral; otherwise it is the OpenAI-compatible path |
| Garden.UrlPart | libs/vertexai/langchain_google_vertexai/model_garden_maas/_base.py:127-135 | a Mistral path is the publisher prefix, the full name, a colon, and the verb for the stream mode; every other family gets the OpenAI-compatible path |
| Garden.MistralUrlPartParses | libs/vertexai/langchain_google_vertexai/model_garden_maas/_base.py:128-134 | splitting a Mistral path at `/`, and then its last segment at `:`, gives back the publisher, the full model name and the verb |
| Garden.ApiVersion | libs/vertexai/langchain_google_vertexai/model_garden_maas/_base.py:138-141 | the version is "v1beta1" exactly for Llama, and "v1" for Mistral |
| Garden.GetUrl | libs/vertexai/langchain_google_vertexai/model_garden_maas/_base.py:137-145 | the base URL is the `/`-join of its eight segments: scheme, empty, regional host, version, "projects", project, "locations", location |
| Garden.GetUrlParses | libs/vertexai/langchain_google_vertexai/model_garden_maas/_base.py:137-145 | when region and project contain no `/`, splitting the base URL at `/` gives back the scheme, the regional host, the version, the project and the location |
| Http.IsError | libs/vertexai/langchain_google_vertexai/model_garden_maas/_base.py:44 | a status is an error exactly when it is a 4xx or a 5xx code |
| Http.StatusMessage | libs/vertexai/langchain_google_vertexai/model_garden_maas/_base.py:47-48 | the message starts with the lead text and ends with the body |
| Http.RaiseOnError | libs/vertexai/langchain_google_vertexai/model_garden_maas/_base.py:42-51 | raises exactly for 4xx and 5xx statuses, with an HTTP status error carrying the status and URL and a message that starts with the lead text and ends with the body |
| Http.MessageLayout | libs/vertexai/langchain_google_vertexai/model_garden_maas/_base.py:47-48 | the message reads back as its parts: the three status digits at a fixed offset (and they denote the status), then the URL, then the body |
| Http.RaiseOnErrorInjective | libs/vertexai/langchain_google_vertexai/model_garden_maas/_base.py:54-63 | two error responses that raise the same error have the same status, URL and body |
| Http.StatusErrorsAreFinal | libs/vertexai/langchain_google_vertexai/model_garden_maas/_base.py:44-51 | an error status always raises, and the error it raises is never one the retry decorator retries |
| Http.Retryable | libs/vertexai/langchain_google_vertexai/model_garden_maas/_base.py:148-159 | exactly transport failures (request and stream errors) are retried |
| Dispatch.Consume | libs/vertexai/langchain_google_vertexai/model_garden_maas/_base.py:210-213 | records are the decoded events before the sentinel, in order; the stream ends at the sentinel, at the end of the events (exactly when every event was yielded), or with a decode error on the first event that does not parse |
| Dispatch.ConsumeAppend | libs/vertexai/langchain_google_vertexai/model_garden_maas/_base.py:72-75 | reading is incremental: a prefix read to its end is continued by the rest, and a stream that ended inside the prefix ignores the rest |
| Dispatch.SentinelCutsStream | libs/vertexai/langchain_google_vertexai/model_garden_maas/_base.py:211-212 | nothing after the sentinel affects what the stream yields |
| Dispatch.DecodeMattersOnlyWhereRead | libs/vertexai/langchain_google_vertexai/model_garden_maas/_base.py:213 | two decoders that agree on the events yielded and on the event where reading stops give the same stream |
| Dispatch.StreamExample | libs/vertexai/langchain_google_vertexai/model_garden_maas/_base.py:210-213 | the events a, b, [DONE], c yield a and b, then end at the sentinel |
| Dispatch.OpenStream | libs/vertexai/langchain_google_vertexai/model_garden_maas/_base.py:208-213 | an error status raises before any record; otherwise the events are consumed |
| Dispatch.IterSse | libs/vertexai/langchain_google_vertexai/model_garden_maas/_base.py:201-213 | the loop yields exactly what `OpenStream` specifies, and stops early at the sentinel or at a decode failure |
| Dispatch.ReadJson | libs/vertexai/langchain_google_vertexai/model_garden_maas/_base.py:216-218 | an error status raises the status error; otherwise gives the decoded body, or a decode error when the body does not parse |
| Values.Truthy | libs/vertexai/langchain_google_vertexai/model_garden_maas/_base.py:175 | a value is falsy exactly when it is null, false, zero, or an empty string, list or dictionary |
| Dispatch.StreamFlag | libs/vertexai/langchain_google_vertexai/model_garden_maas/_base.py:174-175 | a call streams exactly when `stream`, once defaulted, is truthy |
| Dispatch.WithStreamDefault | libs/vertexai/langchain_google_vertexai/model_garden_maas/_base.py:194-195 | adds `stream` as false only when it is missing, and keeps every given key and value |
| Dispatch.RequestDeterminate | libs/vertexai/langchain_google_vertexai/model_garden_maas/_base.py:193-218 | only one request has the shape a call's parameters call for |
| Dispatch.StreamFlagTravels | libs/vertexai/langchain_google_vertexai/model_garden_maas/_base.py:196-207 | the body's `stream` value is the one that chose the path, and the event-stream header is sent exactly when streaming |
| Dispatch.DefaultCommutesWithEnrichment | libs/vertexai/langchain_google_vertexai/model_garden_maas/_base.py:172-189 | defaulting `stream` after normalising gives the normalisation of the defaulted parameters, with the same stream flag |
| Dispatch.Answer | libs/vertexai/langchain_google_vertexai/model_garden_maas/_base.py:199-218 | a streaming call answers with the stream, a plain call with the read JSON body |
| Dispatch.CompletionWithRetry | libs/vertexai/langchain_google_vertexai/model_garden_maas/_base.py:193-218 | sends the request shaped by the parameters (defaulted `stream`, normalised body, path and headers by stream mode) and answers with what the server's exchange gives in that mode |
| Dispatch.ACompletionWithRetry | libs/vertexai/langchain_google_vertexai/model_garden_maas/_base.py:162-190 | sends the same shaped request as the synchronous call and gives the same answer, despite the other order of steps |

## Left out

- `_get_token`: calls into Google's authentication library, and is not used by the functions
  modelled here. That it raises when no token comes back is not modelled.
- The HTTP transport: sending, connecting and closing, the client's base URL joined with the
  path, and the request object attached to the error. The server is a parameter.
- The retry policy of `create_base_retry_decorator` (tenacity): the number of attempts, the
  back-off and the callbacks. Only the choice of which exceptions are retried is modelled
  (`Http.Retryable`); transport failures do not arise in the model, since the server function
  always answers.
- Generators, coroutines and context managers: a stream is modelled as all it yields, read to its
  end. A consumer that stops early, and the closing of the connection, are not modelled.
- The body's UTF-8 decoding in `_raise_on_error`: the body is already text in the model.
- `Strings.Lower`: lower-cases only ASCII letters, where Python's `str.lower` lower-cases all of
  Unicode. This does not change which family a name resolves to, since every allow-listed name is
  ASCII. Only a few characters outside ASCII lower-case to something containing an ASCII letter:
  KELVIN SIGN gives `k`, and CAPITAL I WITH DOT ABOVE gives `i` followed by a combining dot. No
  allow-listed name contains a `k` or a combining character, so neither can produce a match.
- Families.ResolveFamily: the name in its error is lower-cased only in ASCII, so it keeps capital
  letters outside ASCII. For "Ä" the model's error names "Ä", where the source's message names "ä".
- Garden.ValidateEnvironment: resolves with the corrected resolver, so it rejects the member
  values "1" and "2", which the source's validator accepts. For "2" the source builds a Mistral
  configuration named and addressed "2"; `Garden.ValidateAsWritten` models that behaviour.
- The pydantic mechanics of the validator: the `values` dictionary, field aliases, and the
  `model_family`/`project` defaults of `None`. The validator returns a typed configuration instead.
- `Garden.UrlPart`: requires the configuration invariant the validator establishes (a full name
  for Mistral models). The source would format `None` into the path for a Mistral configuration
  built without one. Such a value exists in the model, but neither validator builds one, and
  `Garden.UrlPart` requires `Garden.WellFormed`, which excludes it.
- Deep copying in `_enrich_params`: Dafny maps are values, so the caller's map cannot change in
  any case.
- Floating-point JSON values: `Value` has no floats.

## Findings

| source | as written | input that shows it | evidently intended | confidence | as-written member | corrected member |
|---|---|---|---|---|---|---|
| libs/vertexai/langchain_google_vertexai/model_garden_maas/_base.py:78-95 | `VertexMaaSModelFamily(value)` first looks `value` up among the members' values; `auto()` generates 1 and 2, which a `(str, Enum)` class stores as "1" and "2" on Python versions that convert the value to the mixed-in type; `_missing_` runs only when that lookup fails | model name "1" is accepted as LLAMA, and "2" as MISTRAL | only names in the two allow-lists are accepted | medium, not executed | Families.FamilyFromValue | Families.ResolveFamily |
