# Anthropic client: request shaping and addressing

A Dafny model of the core of the Anthropic client in a Go LLM library. It covers:

- the client's configuration (`Client`) and its functional options;
- `New`, which trims one trailing "/" from the base URL and then runs the options in order, stopping at the first failure;
- the validation and translation of the tool choice and the tools of a message request, done before anything is sent;
- the choice of target URL in direct mode and in Vertex AI mode, including writing the default base URL back into the client;
- the header policy: content type, API key or bearer token, and version header precedence;
- the decoding of an error response into a plain error or a structured `LLMError`;
- the front end's `options` record and its setters.

Modules, one per source file or shared concern:

- `Wrappers` (wrappers.dfy): `Option` and `Result`.
- `Text` (text.dfy): `HasPrefix`, `HasSuffix`, `TrimSuffix`, and the `%d` rendering `IntString` with its inverse `ParseInt`.
- `Llms` (llms_errors.dfy): `LLMError` and the `Tool`/`FunctionDefinition` values a request carries.
- `AnthropicClient` (anthropic_client.dfy): the client.
- `Anthropic` (anthropic_options.dfy): the front end's options.

Go's `Option` closures become datatypes, one constructor per setter. `ApplyOption`/`Set` give what running a closure does to the record, and the classes' `Apply` methods are proved against them. A caller-written client option that returns an error is the constructor `Rejecting(err)`. Whatever such a closure wrote before failing is unobservable, because `New` then returns no client. A caller-written option that succeeds is not modelled.

Error decoding:

- The base message is "API returned unexpected status code: N".
- An unparsable error body yields a non-structured error carrying just the base message.
- A failure to read the body yields a non-structured error whose text is "base: reason".

A tool choice given as a `ToolChoice` value or pointer is accepted by the request type, whose comment describes that form, but `handleToolChoice` does not recognise it. It yields no choice and no error, the same as any other unrecognised value. The model keeps this case apart as `ChoiceToolChoice`, so the contract of `HandleToolChoice` shows that such a value is silently dropped.

## Model

| member | source | states |
|---|---|---|
| Text.TrimSlashRemovesAtMostOne | llms/anthropic/internal/anthropicclient/anthropicclient.go:93 | trimming "/" removes at most one character and keeps a prefix of the input; "x//" keeps a trailing "/"; input without a trailing "/" is unchanged |
| Text.IntStringRoundTrip | llms/anthropic/internal/anthropicclient/anthropicclient.go:286 | the `%d` rendering of any integer (negative ones included) is a decimal string that parses back to the same integer |
| AnthropicClient.OptionSetsOnlyItsField | llms/anthropic/internal/anthropicclient/anthropicclient.go:47-86 | every library client option succeeds, assigns its argument to its own field and leaves every other field unchanged |
| AnthropicClient.OptionIdempotent | llms/anthropic/internal/anthropicclient/anthropicclient.go:47-86 | running any option twice in a row gives the same outcome as running it once |
| AnthropicClient.LaterOptionWins | llms/anthropic/internal/anthropicclient/anthropicclient.go:47-86 | of two options for the same field, the result equals running the later one alone |
| AnthropicClient.ApplyOptionsSnoc | llms/anthropic/internal/anthropicclient/anthropicclient.go:96-100 | running `opts + [o]` runs `o` on the outcome of `opts`, unless `opts` already failed |
| AnthropicClient.ApplyOptionsFirstFailure | llms/anthropic/internal/anthropicclient/anthropicclient.go:96-100 | the run fails with exactly the error of the first failing option, whatever follows it |
| AnthropicClient.ApplyOptionsLastWins | llms/anthropic/internal/anthropicclient/anthropicclient.go:96-102 | after a run with no failure each field holds the value of the last option assigning it, or its initial value |
| AnthropicClient.NewKeepsCredentials | llms/anthropic/internal/anthropicclient/anthropicclient.go:89-103 | a successful `New` stores token and model unchanged and the base URL with one trailing "/" trimmed, whatever library options run |
| AnthropicClient.New | llms/anthropic/internal/anthropicclient/anthropicclient.go:89-103 | returns a fresh client whose fields are the initial record after the options, or no client and the first option error |
| AnthropicClient.Client.constructor | llms/anthropic/internal/anthropicclient/anthropicclient.go:90-94 | the struct literal of `New`: token and model as given, base URL trimmed, every other field empty |
| AnthropicClient.Client.Apply | llms/anthropic/internal/anthropicclient/anthropicclient.go:47-86 | running an option on the client leaves its fields equal to `ApplyOption` of the old fields, or unchanged with the error on failure |
| AnthropicClient.VersionHeader | llms/anthropic/internal/anthropicclient/anthropicclient.go:236-245 | the version header is never empty, is the configured version when one is set, and is otherwise one of the two defaults |
| AnthropicClient.VersionPrecedence | llms/anthropic/internal/anthropicclient/anthropicclient.go:236-245 | with no configured version the header is "vertex-2023-10-16" in Vertex mode and "2023-06-01" in direct mode |
| AnthropicClient.HeaderPolicy | llms/anthropic/internal/anthropicclient/anthropicclient.go:227-246 | exactly three headers: Content-Type is application/json; Authorization "Bearer "+token exactly when a project is set, x-api-key = token exactly when it is not; the version header |
| AnthropicClient.HeadersIgnoreAddressing | llms/anthropic/internal/anthropicclient/anthropicclient.go:227-246 | the headers depend only on token, project and version, not on base URL, location or model |
| AnthropicClient.Client.SetHeaders | llms/anthropic/internal/anthropicclient/anthropicclient.go:227-247 | the request's headers become the old headers overridden by the client's header policy; URL and body unchanged |
| AnthropicClient.DirectURLShape | llms/anthropic/internal/anthropicclient/anthropicclient.go:252-257 | in direct mode the base URL after addressing is the configured one, or "https://api.anthropic.com/v1" when that is empty, and the URL is exactly that base URL followed by the path |
| AnthropicClient.VertexIgnoresPathAndBaseURL | llms/anthropic/internal/anthropicclient/anthropicclient.go:258-262 | in Vertex mode the URL is the same for every path and every base URL, and addressing leaves the client unchanged |
| AnthropicClient.VersionDoesNotAffectURL | llms/anthropic/internal/anthropicclient/anthropicclient.go:249-262 | changing the configured version changes neither the URL nor the base URL written back |
| AnthropicClient.AddressingIsStable | llms/anthropic/internal/anthropicclient/anthropicclient.go:252-257 | writing the default base URL back is idempotent and changes neither later URLs nor the headers |
| AnthropicClient.Client.Do | llms/anthropic/internal/anthropicclient/anthropicclient.go:249-269 | builds a fresh request with the mode's URL, the header policy and the payload; the client afterwards holds the defaulted base URL in direct mode and is otherwise unchanged |
| AnthropicClient.HandleToolChoice | llms/anthropic/internal/anthropicclient/anthropicclient.go:163-180 | fails exactly for a tool without function; a string gives type with empty name; a tool gives its type and function name; a `ToolChoice` value and anything else give no choice and no error |
| AnthropicClient.TranslateToolsFailsIff | llms/anthropic/internal/anthropicclient/anthropicclient.go:182-195 | translating tools fails if and only if some tool has no function definition |
| AnthropicClient.TranslateToolsCopies | llms/anthropic/internal/anthropicclient/anthropicclient.go:182-195 | on success the output has the input's length and order, each entry copying name, description and schema of its tool's function |
| AnthropicClient.TranslateToolsPrefixFails | llms/anthropic/internal/anthropicclient/anthropicclient.go:184-187 | once a prefix of the tools fails, the whole list fails with the same error |
| AnthropicClient.ToolAndChoiceAgree | llms/anthropic/internal/anthropicclient/anthropicclient.go:163-195 | the tool list check and the tool choice check accept and reject the same single tool, and agree on its name |
| AnthropicClient.HandleTools | llms/anthropic/internal/anthropicclient/anthropicclient.go:182-195 | the loop returns exactly the translation `TranslateTools` of its input |
| AnthropicClient.Client.CreateMessage | llms/anthropic/internal/anthropicclient/anthropicclient.go:198-225 | a bad tool choice is rejected first, then bad tools; a payload is dispatched exactly when both checks pass, with the request's fields, the translated tools and the choice |
| AnthropicClient.DecodeError | llms/anthropic/internal/anthropicclient/anthropicclient.go:285-306 | the message always starts with the status base message; structured exactly when the body was read and parsed, carrying composed message, status, type, provider message and the exact body; plain base message on a parse failure |
| AnthropicClient.DegradedErrorIdentifiesStatus | llms/anthropic/internal/anthropicclient/anthropicclient.go:286-296 | two plain errors from unparsable bodies are equal only when their status codes are equal |
| Text.TrimSuffix | llms/anthropic/internal/anthropicclient/anthropicclient.go:93 | with the suffix present, the result followed by the suffix is the input; without it, the input is returned unchanged |
| Text.IntString | llms/anthropic/internal/anthropicclient/anthropicclient.go:286 | the `%d` text is canonical: non-empty, starting with "-" exactly for negative numbers, and with no leading zero except for 0 itself |
| AnthropicClient.ApplyOption | llms/anthropic/internal/anthropicclient/anthropicclient.go:47-86 | an option fails exactly when it is a failing caller option, with that option's error; no option changes token, model or base URL |
| AnthropicClient.ApplyOptions | llms/anthropic/internal/anthropicclient/anthropicclient.go:96-100 | a failed run's error is the error of one of the options in the list |
| AnthropicClient.Initial | llms/anthropic/internal/anthropicclient/anthropicclient.go:90-94 | the client before any option: token and model as given, the base URL a prefix of the given one shorter by at most one character, direct mode, no version, no transport, legacy flag off |
| AnthropicClient.VertexURL | llms/anthropic/internal/anthropicclient/anthropicclient.go:259-261 | the Vertex URL starts with the https host of the location and the project path, and ends with the model's publisher path and ":streamRawPredict" |
| AnthropicClient.Addressed | llms/anthropic/internal/anthropicclient/anthropicclient.go:252-255 | choosing the URL changes at most the base URL: a direct-mode client with an empty base URL gets "https://api.anthropic.com/v1"; a set base URL or Vertex mode leaves the client unchanged |
| AnthropicClient.RequestURL | llms/anthropic/internal/anthropicclient/anthropicclient.go:252-262 | in direct mode the URL ends with the path; in Vertex mode it ends with ":streamRawPredict" (its exact value is stated by DirectURLShape and VertexRequestURL) |
| AnthropicClient.VertexURLFormat | llms/anthropic/internal/anthropicclient/anthropicclient.go:259-261 | the Vertex URL is exactly "https://" + location + "-aiplatform.googleapis.com/v1/projects/" + project + "/locations/" + location + "/publishers/anthropic/models/" + model + ":streamRawPredict", the location appearing twice |
| AnthropicClient.VertexRequestURL | llms/anthropic/internal/anthropicclient/anthropicclient.go:258-262 | in Vertex mode the URL is that exact endpoint for the client's location, project and model, whatever the path and base URL |
| AnthropicClient.TranslateTools | llms/anthropic/internal/anthropicclient/anthropicclient.go:182-195 | a successful translation has as many entries as the input; a failure carries the nil-function error |
| AnthropicClient.BaseMessage | llms/anthropic/internal/anthropicclient/anthropicclient.go:286 | the status message is the fixed prefix followed by the canonical `%d` text of the status code, which parses back to the code |
| Anthropic.Set | llms/anthropic/anthropicllm_option.go:28-76 | after a setter runs, its field holds exactly the setter's argument |
| Anthropic.SetAll | llms/anthropic/anthropicllm_option.go:28-76 | a field that no setter in the sequence targets keeps its value |
| Anthropic.SetterAssignsOnlyItsField | llms/anthropic/anthropicllm_option.go:28-76 | each setter stores its argument verbatim in its own field (the base URL too, untrimmed) and leaves every other field unchanged |
| Anthropic.SetterIdempotent | llms/anthropic/anthropicllm_option.go:28-76 | running the same setter twice equals running it once |
| Anthropic.LaterSetterWins | llms/anthropic/anthropicllm_option.go:28-76 | of two setters of the same field run in sequence, the later one wins |
| Anthropic.SettersOfDifferentFieldsCommute | llms/anthropic/anthropicllm_option.go:28-76 | setters of different fields give the same record in either order |
| Anthropic.SetAllSnoc | llms/anthropic/anthropicllm_option.go:28-76 | running `opts + [o]` equals running `o` after `opts` |
| Anthropic.SetAllLastWins | llms/anthropic/anthropicllm_option.go:28-76 | after any sequence of setters each field holds the value of its last setter, or its initial value |
| Anthropic.Options.constructor | llms/anthropic/anthropicllm_option.go:11-22 | the zero value of `options`: all strings empty, no HTTP client, legacy flag off |
| Anthropic.Options.Apply | llms/anthropic/anthropicllm_option.go:28-76 | calling a setter's closure leaves the record equal to `Set` of the old record |

## Left out

- HTTP transport: the `Doer.Do` call, `http.NewRequestWithContext`, and the "create request" and "send request" error wrapping. `Client.Do` stops at the request it would send, and a `nil` HTTP client (which would panic) is not modelled.
- Reading the body: only its outcome (bytes or an error text) is an input of `DecodeError`.
- AnthropicClient.DecodeError: on a body-read failure the reader's error is kept as text only. Go's `%w` wrap, which lets callers reach the reader's error (a cancellation, say) through `errors.Is`/`errors.As`, is not modelled.
- AnthropicClient.NewKeepsCredentials: caller-written client options that succeed are not modelled. Such an option may write any field, the exported `Model` and `UseLegacyTextCompletionsAPI` included. The lemma holds for the library options and for failing caller options only.
- JSON: decoding the error envelope is an `unmarshal` function parameter. Serialising payloads is not modelled.
- Header names are the literal keys used; Go's canonicalisation of header names in `Header.Set` is library behaviour.
- `CreateCompletion`, `createCompletion`, `createMessage`, the payload and response types and the streaming reader: their code is not part of this model. `Client.CreateMessage` therefore ends at the payload it dispatches, and `ErrEmptyResponse` is unused.
- Context cancellation and the `StreamingFunc` callbacks (concurrency and effects).
- The float64 fields `Temperature` and `TopP` of the requests are omitted.
- Tool parameter schemas are an opaque type parameter `S`; chat messages an opaque type parameter `M`.
- The definition of `llms.Tool` is not part of this model; its fields are taken from their uses.
- `defaultModel` is declared but not used by the modelled code.
- The front end's constructor, which reads the token from `ANTHROPIC_API_KEY` and builds the client from `options`, is not part of this model; `Anthropic.SetAll` only states what a sequence of setters does to the record.
- The example program (environment variables, printing, `log.Fatal`).
