/**
 * The Anthropic HTTP client: its configuration and functional options,
 * the validation and translation of tools and tool choices that precede
 * sending a message request, the choice of target URL and headers, and
 * the decoding of an error response into an error value.
 *
 * The HTTP transport, JSON (de)serialisation and the request/response
 * payload code that is not part of this model are abstracted: a request is
 * its URL, header map and body; a parsed error body is supplied by an
 * `unmarshal` function given as a parameter.
 */
module AnthropicClient {
  import opened Wrappers
  import opened Llms
  import Text

  const DefaultBaseURL: string := "https://api.anthropic.com/v1"
  const DefaultAnthropicVersion: string := "2023-06-01"
  /** The version header used on Vertex AI when none is configured. */
  const VertexAnthropicVersion: string := "vertex-2023-10-16"
  /** The message of both validation errors (tools and tool choice). */
  const NilFunctionMessage: string := "tool choice function is nil"
  const ContentType: string := "application/json"

  /** A Go `error` value: a plain message or a structured `llms.LLMError`. */
  datatype Error = Plain(text: string) | Provider(llm: LLMError)
  {
    function Message(): string {
      match this
      case Plain(t) => t
      case Provider(e) => e.Error()
    }
  }

  /** An injected HTTP transport (`Doer`), known only by its identity. */
  datatype Doer = Doer(id: nat)

  // ---------------------------------------------------------------------
  // Configuration and options
  // ---------------------------------------------------------------------

  /** The value of every field of a `Client`. */
  datatype ClientConfig = ClientConfig(
    token: string,
    model: string,
    baseURL: string,
    vertexProjectID: string,
    vertexLocation: string,
    httpClient: Option<Doer>,
    anthropicVersion: string,
    useLegacyTextCompletionsAPI: bool)

  /**
   * An `Option` closure. The five library options assign one field each and
   * never fail; `Rejecting` stands for a caller-written option that returns
   * an error (whatever it wrote before failing is discarded with the client).
   */
  datatype ClientOption =
    | WithVertexProjectID(projectID: string)
    | WithVertexLocation(location: string)
    | WithAnthropicVersion(version: string)
    | WithHTTPClient(client: Option<Doer>)
    | WithLegacyTextCompletionsAPI(legacy: bool)
    | Rejecting(err: Error)

  /** The fields of a client, to state which one an option touches. */
  datatype Field =
    | TokenField | ModelField | BaseURLField | VertexProjectIDField
    | VertexLocationField | HTTPClientField | AnthropicVersionField | LegacyField

  datatype FieldValue = StrValue(s: string) | DoerValue(d: Option<Doer>) | FlagValue(b: bool)

  function Get(cfg: ClientConfig, f: Field): FieldValue {
    match f
    case TokenField => StrValue(cfg.token)
    case ModelField => StrValue(cfg.model)
    case BaseURLField => StrValue(cfg.baseURL)
    case VertexProjectIDField => StrValue(cfg.vertexProjectID)
    case VertexLocationField => StrValue(cfg.vertexLocation)
    case HTTPClientField => DoerValue(cfg.httpClient)
    case AnthropicVersionField => StrValue(cfg.anthropicVersion)
    case LegacyField => FlagValue(cfg.useLegacyTextCompletionsAPI)
  }

  /** The field a library option assigns. */
  function Target(o: ClientOption): Field
    requires !o.Rejecting?
  {
    match o
    case WithVertexProjectID(_) => VertexProjectIDField
    case WithVertexLocation(_) => VertexLocationField
    case WithAnthropicVersion(_) => AnthropicVersionField
    case WithHTTPClient(_) => HTTPClientField
    case WithLegacyTextCompletionsAPI(_) => LegacyField
  }

  /** The value a library option assigns to its field. */
  function Assigned(o: ClientOption): FieldValue
    requires !o.Rejecting?
  {
    match o
    case WithVertexProjectID(p) => StrValue(p)
    case WithVertexLocation(l) => StrValue(l)
    case WithAnthropicVersion(v) => StrValue(v)
    case WithHTTPClient(d) => DoerValue(d)
    case WithLegacyTextCompletionsAPI(b) => FlagValue(b)
  }

  /** Running one option closure on a client configuration. */
  function ApplyOption(cfg: ClientConfig, o: ClientOption): (r: Result<ClientConfig, Error>)
    ensures r.Failure? <==> o.Rejecting?
    ensures o.Rejecting? ==> r == Failure(o.err)
    ensures r.Success? ==> r.value.token == cfg.token && r.value.model == cfg.model && r.value.baseURL == cfg.baseURL
  {
    match o
    case WithVertexProjectID(p) => Success(cfg.(vertexProjectID := p))
    case WithVertexLocation(l) => Success(cfg.(vertexLocation := l))
    case WithAnthropicVersion(v) => Success(cfg.(anthropicVersion := v))
    case WithHTTPClient(d) => Success(cfg.(httpClient := d))
    case WithLegacyTextCompletionsAPI(b) => Success(cfg.(useLegacyTextCompletionsAPI := b))
    case Rejecting(e) => Failure(e)
  }

  /** Running the options in order, stopping at the first that fails. */
  function ApplyOptions(cfg: ClientConfig, opts: seq<ClientOption>): (r: Result<ClientConfig, Error>)
    ensures r.Failure? ==> exists i :: 0 <= i < |opts| && opts[i] == Rejecting(r.error)
    decreases |opts|
  {
    if opts == [] then Success(cfg)
    else match ApplyOption(cfg, opts[0])
      case Failure(e) => Failure(e)
      case Success(next) =>
        var rest := ApplyOptions(next, opts[1..]);
        assert rest.Failure? ==> exists i :: 0 <= i < |opts| && opts[i] == Rejecting(rest.error) by {
          if rest.Failure? {
            var j :| 0 <= j < |opts[1..]| && opts[1..][j] == Rejecting(rest.error);
            assert opts[j + 1] == opts[1..][j];
          }
        }
        rest
  }

  /** The client `New` builds before running any option. */
  function Initial(token: string, model: string, baseURL: string): (c: ClientConfig)
    ensures c.token == token && c.model == model
    ensures Text.HasPrefix(baseURL, c.baseURL) && |baseURL| - 1 <= |c.baseURL|
    ensures c.vertexProjectID == "" && c.vertexLocation == "" && c.anthropicVersion == ""
    ensures c.httpClient == None && !c.useLegacyTextCompletionsAPI
  {
    Text.TrimSlashRemovesAtMostOne(baseURL);
    ClientConfig(token, model, Text.TrimSuffix(baseURL, "/"), "", "", None, "", false)
  }

  /** A library option assigns its own field and leaves every other field as it was. */
  lemma OptionSetsOnlyItsField(cfg: ClientConfig, o: ClientOption, f: Field)
    requires !o.Rejecting?
    ensures ApplyOption(cfg, o).Success?
    ensures Get(ApplyOption(cfg, o).value, f) == if f == Target(o) then Assigned(o) else Get(cfg, f)
  {
  }

  /** Applying the same option twice is the same as applying it once. */
  lemma OptionIdempotent(cfg: ClientConfig, o: ClientOption)
    ensures ApplyOptions(cfg, [o, o]) == ApplyOption(cfg, o)
  {
    assert [o, o][1..] == [o];
    match ApplyOption(cfg, o)
    case Failure(_) =>
    case Success(once) =>
      assert [o][1..] == [];
      assert ApplyOptions(once, [o]) == ApplyOption(once, o);
  }

  /** Of two library options for the same field, the later one wins. */
  lemma LaterOptionWins(cfg: ClientConfig, o1: ClientOption, o2: ClientOption)
    requires !o1.Rejecting? && !o2.Rejecting? && Target(o1) == Target(o2)
    ensures ApplyOptions(cfg, [o1, o2]) == ApplyOption(cfg, o2)
  {
    assert [o1, o2][1..] == [o2];
    var first := ApplyOption(cfg, o1).value;
    assert [o2][1..] == [];
    assert ApplyOptions(first, [o2]) == ApplyOption(first, o2);
  }

  /** Appending an option applies it to whatever the earlier options produced. */
  lemma {:induction false} ApplyOptionsSnoc(cfg: ClientConfig, opts: seq<ClientOption>, o: ClientOption)
    ensures ApplyOptions(cfg, opts + [o]) ==
      match ApplyOptions(cfg, opts)
      case Failure(e) => Failure(e)
      case Success(c) => ApplyOption(c, o)
    decreases |opts|
  {
    if opts == [] {
      assert [o][1..] == [];
    } else {
      assert (opts + [o])[1..] == opts[1..] + [o];
      match ApplyOption(cfg, opts[0])
      case Failure(_) =>
      case Success(next) => ApplyOptionsSnoc(next, opts[1..], o);
    }
  }

  /** The error is the one of the first failing option; later options never run. */
  lemma {:induction false} ApplyOptionsFirstFailure(cfg: ClientConfig, opts: seq<ClientOption>, k: nat)
    requires k < |opts| && opts[k].Rejecting?
    requires forall i :: 0 <= i < k ==> !opts[i].Rejecting?
    ensures ApplyOptions(cfg, opts) == Failure(opts[k].err)
    decreases k
  {
    if k > 0 {
      ApplyOptionsFirstFailure(ApplyOption(cfg, opts[0]).value, opts[1..], k - 1);
    }
  }

  /**
   * The value a field ends up with: that of the last option in `opts`
   * assigning it, or `initial` when none does.
   */
  function LastAssigned(opts: seq<ClientOption>, f: Field, initial: FieldValue): FieldValue
    requires forall i :: 0 <= i < |opts| ==> !opts[i].Rejecting?
  {
    if opts == [] then initial
    else if Target(opts[|opts| - 1]) == f then Assigned(opts[|opts| - 1])
    else LastAssigned(opts[..|opts| - 1], f, initial)
  }

  /** After a successful run of options, each field holds the last value assigned to it. */
  lemma {:induction false} ApplyOptionsLastWins(cfg: ClientConfig, opts: seq<ClientOption>, f: Field)
    requires forall i :: 0 <= i < |opts| ==> !opts[i].Rejecting?
    ensures ApplyOptions(cfg, opts).Success?
    ensures Get(ApplyOptions(cfg, opts).value, f) == LastAssigned(opts, f, Get(cfg, f))
    decreases |opts|
  {
    if opts != [] {
      var front, o := opts[..|opts| - 1], opts[|opts| - 1];
      assert opts == front + [o];
      ApplyOptionsLastWins(cfg, front, f);
      ApplyOptionsSnoc(cfg, front, o);
      OptionSetsOnlyItsField(ApplyOptions(cfg, front).value, o, f);
    }
  }

  /** `New` keeps the token and model as given and the base URL with one trailing "/" trimmed. */
  lemma NewKeepsCredentials(token: string, model: string, baseURL: string, opts: seq<ClientOption>)
    requires ApplyOptions(Initial(token, model, baseURL), opts).Success?
    ensures ApplyOptions(Initial(token, model, baseURL), opts).value.token == token
    ensures ApplyOptions(Initial(token, model, baseURL), opts).value.model == model
    ensures ApplyOptions(Initial(token, model, baseURL), opts).value.baseURL == Text.TrimSuffix(baseURL, "/")
  {
    var init := Initial(token, model, baseURL);
    if exists k :: 0 <= k < |opts| && opts[k].Rejecting? {
      var k := FirstRejecting(opts);
      ApplyOptionsFirstFailure(init, opts, k);
      assert false;
    }
    ApplyOptionsLastWins(init, opts, TokenField);
    ApplyOptionsLastWins(init, opts, ModelField);
    ApplyOptionsLastWins(init, opts, BaseURLField);
    UntargetedFieldKept(opts, TokenField, Get(init, TokenField));
    UntargetedFieldKept(opts, ModelField, Get(init, ModelField));
    UntargetedFieldKept(opts, BaseURLField, Get(init, BaseURLField));
  }

  /** The index of the first failing option, given that one exists. */
  function FirstRejecting(opts: seq<ClientOption>): (k: nat)
    requires exists k :: 0 <= k < |opts| && opts[k].Rejecting?
    ensures k < |opts| && opts[k].Rejecting?
    ensures forall i :: 0 <= i < k ==> !opts[i].Rejecting?
  {
    if opts[0].Rejecting? then 0
    else
      assert exists k :: 0 <= k < |opts[1..]| && opts[1..][k].Rejecting? by {
        var k :| 0 <= k < |opts| && opts[k].Rejecting?;
        assert opts[1..][k - 1] == opts[k];
      }
      1 + FirstRejecting(opts[1..])
  }

  /** Fields that no option targets keep their initial value. */
  lemma {:induction false} UntargetedFieldKept(opts: seq<ClientOption>, f: Field, initial: FieldValue)
    requires forall i :: 0 <= i < |opts| ==> !opts[i].Rejecting?
    requires f in {TokenField, ModelField, BaseURLField}
    ensures LastAssigned(opts, f, initial) == initial
  {
    if opts != [] {
      UntargetedFieldKept(opts[..|opts| - 1], f, initial);
    }
  }

  // ---------------------------------------------------------------------
  // Requests and their addressing
  // ---------------------------------------------------------------------

  /** An outgoing HTTP request: its URL, its header map and its body. */
  class Request {
    var url: string
    var header: map<string, string>
    var body: seq<byte>

    constructor (url: string, body: seq<byte>)
      ensures this.url == url && this.body == body && header == map[]
    {
      this.url := url;
      this.body := body;
      header := map[];
    }

    /** `Header.Set`: replaces any value of `key`. */
    method Set(key: string, value: string)
      modifies this
      ensures header == old(header)[key := value]
      ensures url == old(url) && body == old(body)
    {
      header := header[key := value];
    }
  }

  /** The anthropic-version header: the configured one, else the default of the mode. */
  function VersionHeader(cfg: ClientConfig): (v: string)
    ensures v != ""
    ensures cfg.anthropicVersion != "" ==> v == cfg.anthropicVersion
    ensures cfg.anthropicVersion == "" ==> v in {VertexAnthropicVersion, DefaultAnthropicVersion}
  {
    if cfg.anthropicVersion != "" then cfg.anthropicVersion
    else if cfg.vertexProjectID != "" then VertexAnthropicVersion
    else DefaultAnthropicVersion
  }

  /** Explicit version first, then the Vertex default, then the standard default. */
  lemma VersionPrecedence(cfg: ClientConfig)
    ensures cfg.anthropicVersion == "" && cfg.vertexProjectID != "" ==> VersionHeader(cfg) == VertexAnthropicVersion
    ensures cfg.anthropicVersion == "" && cfg.vertexProjectID == "" ==> VersionHeader(cfg) == DefaultAnthropicVersion
  {
  }

  /** The headers `setHeaders` writes, keyed by the literal names it uses. */
  function HeaderPolicy(cfg: ClientConfig): (h: map<string, string>)
    ensures h.Keys == {"Content-Type", "anthropic-version", if cfg.vertexProjectID != "" then "Authorization" else "x-api-key"}
    ensures h["Content-Type"] == ContentType
    ensures ("Authorization" in h) <==> cfg.vertexProjectID != ""
    ensures ("x-api-key" in h) <==> cfg.vertexProjectID == ""
    ensures "Authorization" in h ==> h["Authorization"] == "Bearer " + cfg.token
    ensures "x-api-key" in h ==> h["x-api-key"] == cfg.token
    ensures h["anthropic-version"] == VersionHeader(cfg)
  {
    var typed := map["Content-Type" := ContentType];
    var authed := if cfg.vertexProjectID != "" then typed["Authorization" := "Bearer " + cfg.token]
                  else typed["x-api-key" := cfg.token];
    authed["anthropic-version" := VersionHeader(cfg)]
  }

  /** The headers depend on the token, the project and the version only. */
  lemma HeadersIgnoreAddressing(a: ClientConfig, b: ClientConfig)
    requires a.token == b.token && a.vertexProjectID == b.vertexProjectID && a.anthropicVersion == b.anthropicVersion
    ensures HeaderPolicy(a) == HeaderPolicy(b)
  {
  }

  /** The Vertex AI endpoint for a model in a project and location. */
  function VertexURL(location: string, projectID: string, model: string): (url: string)
    ensures Text.HasPrefix(url, "https://" + location + "-aiplatform.googleapis.com/v1/projects/" + projectID + "/")
    ensures Text.HasSuffix(url, "/publishers/anthropic/models/" + model + ":streamRawPredict")
  {
    var head := "https://" + location + "-aiplatform.googleapis.com/v1/projects/" + projectID + "/";
    var modelPath := "/publishers/anthropic/models/" + model;
    var url := head + ("locations/" + location) + modelPath + ":streamRawPredict";
    assert url[..|head|] == head;
    assert url[|url| - |modelPath + ":streamRawPredict"|..] == modelPath + ":streamRawPredict";
    url
  }

  /** The client after `do` has chosen its URL: an empty direct base URL becomes the default. */
  function Addressed(cfg: ClientConfig): (r: ClientConfig)
    ensures r == cfg.(baseURL := r.baseURL)
    ensures r.vertexProjectID == "" ==> r.baseURL != ""
    ensures cfg.baseURL != "" || cfg.vertexProjectID != "" ==> r == cfg
    ensures cfg.vertexProjectID == "" && cfg.baseURL == "" ==> r.baseURL == DefaultBaseURL
  {
    if cfg.vertexProjectID == "" && cfg.baseURL == "" then cfg.(baseURL := DefaultBaseURL) else cfg
  }

  /** The URL `do` posts to for `path`. */
  function RequestURL(cfg: ClientConfig, path: string): (url: string)
    ensures cfg.vertexProjectID == "" ==> Text.HasSuffix(url, path)
    ensures cfg.vertexProjectID != "" ==> Text.HasSuffix(url, ":streamRawPredict")
  {
    if cfg.vertexProjectID == "" then
      var url := Addressed(cfg).baseURL + path;
      assert url[|url| - |path|..] == path;
      url
    else
      VertexURL(cfg.vertexLocation, cfg.vertexProjectID, cfg.model)
  }

  /** In direct mode the URL is the base URL, or the default one when it is empty, followed by the path. */
  lemma DirectURLShape(cfg: ClientConfig, path: string)
    requires cfg.vertexProjectID == ""
    ensures Addressed(cfg).baseURL == (if cfg.baseURL == "" then DefaultBaseURL else cfg.baseURL)
    ensures RequestURL(cfg, path) == (if cfg.baseURL == "" then DefaultBaseURL else cfg.baseURL) + path
  {
  }

  /** The Vertex endpoint is exactly the `streamRawPredict` format with the location written twice. */
  lemma VertexURLFormat(location: string, projectID: string, model: string)
    ensures VertexURL(location, projectID, model)
         == "https://" + location + "-aiplatform.googleapis.com/v1/projects/" + projectID
          + "/locations/" + location + "/publishers/anthropic/models/" + model + ":streamRawPredict"
  {
    assert "/" + ("locations/" + location) == "/locations/" + location;
  }

  /** In Vertex mode the URL is the Vertex endpoint of the client's location, project and model. */
  lemma VertexRequestURL(cfg: ClientConfig, path: string)
    requires cfg.vertexProjectID != ""
    ensures RequestURL(cfg, path)
         == "https://" + cfg.vertexLocation + "-aiplatform.googleapis.com/v1/projects/" + cfg.vertexProjectID
          + "/locations/" + cfg.vertexLocation + "/publishers/anthropic/models/" + cfg.model + ":streamRawPredict"
  {
    VertexURLFormat(cfg.vertexLocation, cfg.vertexProjectID, cfg.model);
  }

  /** In Vertex mode neither the path nor the base URL matters, and the base URL is left alone. */
  lemma VertexIgnoresPathAndBaseURL(cfg: ClientConfig, baseURL: string, path1: string, path2: string)
    requires cfg.vertexProjectID != ""
    ensures RequestURL(cfg.(baseURL := baseURL), path1) == RequestURL(cfg, path2)
    ensures Addressed(cfg) == cfg
  {
  }

  /** The version setting changes the version header only, never the URL. */
  lemma VersionDoesNotAffectURL(cfg: ClientConfig, version: string, path: string)
    ensures RequestURL(cfg.(anthropicVersion := version), path) == RequestURL(cfg, path)
    ensures Addressed(cfg.(anthropicVersion := version)) == Addressed(cfg).(anthropicVersion := version)
  {
  }

  /** Writing the default base URL back does not change the URL of later calls. */
  lemma AddressingIsStable(cfg: ClientConfig, path: string)
    ensures Addressed(Addressed(cfg)) == Addressed(cfg)
    ensures RequestURL(Addressed(cfg), path) == RequestURL(cfg, path)
    ensures HeaderPolicy(Addressed(cfg)) == HeaderPolicy(cfg)
  {
  }

  // ---------------------------------------------------------------------
  // Tools and tool choice
  // ---------------------------------------------------------------------

  /** The `tool_choice` member of a message payload. */
  datatype ToolChoice = ToolChoice(typ: string, name: string)

  /**
   * The loosely typed `ToolChoice any` of a request. `ChoiceToolChoice` is a
   * `ToolChoice` value or pointer, which the field's comment invites callers
   * to pass but the type switch does not recognise. `ChoiceOther` is
   * anything else, nil and a `*llms.Tool` included. Both of these give no
   * choice and no error.
   */
  datatype ToolChoiceInput<S> =
    | ChoiceString(s: string)
    | ChoiceTool(tool: Tool<S>)
    | ChoiceToolChoice(choice: ToolChoice)
    | ChoiceOther

  /** A tool as the messages API receives it. */
  datatype PayloadTool<S> = PayloadTool(name: string, description: string, inputSchema: S)

  /** `handleToolChoice`: `None` stands for the nil pointer returned with no error. */
  function HandleToolChoice<S>(choice: ToolChoiceInput<S>): (r: Result<Option<ToolChoice>, Error>)
    ensures r.Failure? <==> choice.ChoiceTool? && choice.tool.definition.None?
    ensures r.Failure? ==> r.error == Plain(NilFunctionMessage)
    ensures r == Success(None) <==> choice.ChoiceToolChoice? || choice.ChoiceOther?
    ensures choice.ChoiceString? ==> r == Success(Some(ToolChoice(choice.s, "")))
    ensures r.Success? && choice.ChoiceTool? ==>
      r.value == Some(ToolChoice(choice.tool.typ, choice.tool.definition.value.name))
  {
    match choice
    case ChoiceString(s) => Success(Some(ToolChoice(s, "")))
    case ChoiceTool(tool) =>
      if tool.definition.None? then Failure(Plain(NilFunctionMessage))
      else Success(Some(ToolChoice(tool.typ, tool.definition.value.name)))
    case ChoiceToolChoice(_) => Success(None)
    case ChoiceOther => Success(None)
  }

  /** The translation of one tool that has a function definition. */
  function ToPayloadTool<S>(tool: Tool<S>): PayloadTool<S>
    requires tool.definition.Some?
  {
    var f := tool.definition.value;
    PayloadTool(f.name, f.description, f.parameters)
  }

  /** Specification of `handleTools`, built up one tool at a time as its loop does. */
  function TranslateTools<S>(tools: seq<Tool<S>>): (r: Result<seq<PayloadTool<S>>, Error>)
    ensures r.Success? ==> |r.value| == |tools|
    ensures r.Failure? ==> r.error == Plain(NilFunctionMessage)
  {
    if tools == [] then Success([])
    else
      var last := tools[|tools| - 1];
      match TranslateTools(tools[..|tools| - 1])
      case Failure(e) => Failure(e)
      case Success(prefix) =>
        if last.definition.None? then Failure(Plain(NilFunctionMessage))
        else Success(prefix + [ToPayloadTool(last)])
  }

  /** Translation fails exactly when some tool has no function definition. */
  lemma {:induction false} TranslateToolsFailsIff<S>(tools: seq<Tool<S>>)
    ensures TranslateTools(tools).Failure? <==> exists i :: 0 <= i < |tools| && tools[i].definition.None?
  {
    if tools != [] {
      var front := tools[..|tools| - 1];
      TranslateToolsFailsIff(front);
      if exists i :: 0 <= i < |front| && front[i].definition.None? {
        var i :| 0 <= i < |front| && front[i].definition.None?;
        assert tools[i] == front[i];
      }
      if exists i :: 0 <= i < |tools| && tools[i].definition.None? {
        var i :| 0 <= i < |tools| && tools[i].definition.None?;
        if i < |front| {
          assert front[i] == tools[i];
        }
      }
    }
  }

  /** A successful translation keeps length and order and copies each tool's name, description and schema. */
  lemma {:induction false} TranslateToolsCopies<S>(tools: seq<Tool<S>>)
    requires TranslateTools(tools).Success?
    ensures |TranslateTools(tools).value| == |tools|
    ensures forall i :: 0 <= i < |tools| ==>
      tools[i].definition.Some? &&
      TranslateTools(tools).value[i] ==
        PayloadTool(tools[i].definition.value.name, tools[i].definition.value.description,
                    tools[i].definition.value.parameters)
  {
    if tools != [] {
      var front := tools[..|tools| - 1];
      TranslateToolsCopies(front);
      forall i | 0 <= i < |front|
        ensures tools[i] == front[i]
      {
      }
    }
  }

  /** The prefix-failure step of the loop: once a prefix fails, the whole list fails. */
  lemma {:induction false} TranslateToolsPrefixFails<S>(tools: seq<Tool<S>>, k: nat)
    requires k <= |tools| && TranslateTools(tools[..k]).Failure?
    ensures TranslateTools(tools) == TranslateTools(tools[..k])
    decreases |tools| - k
  {
    if k < |tools| {
      assert tools[..k + 1][..k] == tools[..k];
      TranslateToolsPrefixFails(tools, k + 1);
    } else {
      assert tools[..k] == tools;
    }
  }

  /** `handleTools` accepts a one-tool list exactly when `handleToolChoice` accepts that tool. */
  lemma ToolAndChoiceAgree<S>(tool: Tool<S>)
    ensures TranslateTools([tool]).Failure? <==> HandleToolChoice(ChoiceTool(tool)).Failure?
    ensures TranslateTools([tool]).Success? ==>
      TranslateTools([tool]).value[0].name == HandleToolChoice(ChoiceTool(tool)).value.value.name
  {
  }

  /** `handleTools`: translate the tools in order, failing at the first one without a function. */
  method HandleTools<S>(tools: seq<Tool<S>>) returns (r: Result<seq<PayloadTool<S>>, Error>)
    ensures r == TranslateTools(tools)
  {
    var resultTools: seq<PayloadTool<S>> := [];
    var i := 0;
    while i < |tools|
      invariant 0 <= i <= |tools|
      invariant TranslateTools(tools[..i]) == Success(resultTools)
    {
      var tool := tools[i];
      assert tools[..i + 1][..i] == tools[..i];
      if tool.definition.None? {
        TranslateToolsPrefixFails(tools, i + 1);
        return Failure(Plain(NilFunctionMessage));
      }
      resultTools := resultTools + [ToPayloadTool(tool)];
      i := i + 1;
    }
    assert tools[..i] == tools;
    r := Success(resultTools);
  }

  /** A `MessageRequest`, without its floating-point sampling fields and streaming callback. */
  datatype MessageRequest<M, S> = MessageRequest(
    model: string,
    messages: seq<M>,
    system: string,
    maxTokens: int,
    topK: int,
    tools: seq<Tool<S>>,
    toolChoice: ToolChoiceInput<S>,
    stopWords: seq<string>,
    stream: bool)

  /** The `messagePayload` handed to the sending code. */
  datatype MessagePayload<M, S> = MessagePayload(
    model: string,
    messages: seq<M>,
    system: string,
    maxTokens: int,
    stopWords: seq<string>,
    stream: bool,
    topK: int,
    tools: seq<PayloadTool<S>>,
    toolChoice: Option<ToolChoice>)

  /** What `CreateMessage` does with a request: reject it, or dispatch a payload. */
  datatype Dispatch<M, S> = Rejected(err: Error) | Dispatched(payload: MessagePayload<M, S>)

  // ---------------------------------------------------------------------
  // Errors
  // ---------------------------------------------------------------------

  /** The `{"error": {"message", "type"}}` envelope of an error body. */
  datatype Envelope = Envelope(message: string, typ: string)

  const StatusPrefix: string := "API returned unexpected status code: "

  /** The status message: the fixed prefix, then a decimal text that parses back to the status code. */
  function BaseMessage(statusCode: int): (m: string)
    ensures Text.HasPrefix(m, StatusPrefix)
    ensures Text.IsDecimal(m[|StatusPrefix|..]) && Text.ParseInt(m[|StatusPrefix|..]) == statusCode
    ensures m[|StatusPrefix|..] == Text.IntString(statusCode)
  {
    Text.IntStringRoundTrip(statusCode);
    var m := StatusPrefix + Text.IntString(statusCode);
    assert m[|StatusPrefix|..] == Text.IntString(statusCode);
    m
  }

  /**
   * `decodeError`. `body` is the outcome of reading the response body (a
   * read failure carries the reader's error text) and `unmarshal` parses an
   * error envelope, `None` when the bytes are not one.
   */
  function DecodeError(statusCode: int, body: Result<seq<byte>, string>, unmarshal: seq<byte> -> Option<Envelope>): (e: Error)
    ensures Text.HasPrefix(e.Message(), BaseMessage(statusCode))
    ensures e.Provider? <==> body.Success? && unmarshal(body.value).Some?
    ensures body.Failure? ==> e == Plain(BaseMessage(statusCode) + ": " + body.error)
    ensures body.Success? && unmarshal(body.value).None? ==> e == Plain(BaseMessage(statusCode))
    ensures e.Provider? ==>
      var env := unmarshal(body.value).value;
      && e.llm.message == BaseMessage(statusCode) + ": " + env.message
      && e.llm.statusCode == statusCode
      && e.llm.errorType == env.typ
      && e.llm.errorMessage == env.message
      && e.llm.rawResponse == body.value
  {
    var msg := BaseMessage(statusCode);
    match body
    case Failure(readErr) => Plain(msg + ": " + readErr)
    case Success(bytes) =>
      match unmarshal(bytes)
      case None => Plain(msg)
      case Some(env) =>
        Provider(LLMError(msg + ": " + env.message, env.message, statusCode, env.typ, bytes))
  }

  /** Even the degraded error of an unparsable body identifies the status code. */
  lemma {:induction false} DegradedErrorIdentifiesStatus(code1: int, code2: int, body1: seq<byte>, body2: seq<byte>,
                                                       unmarshal: seq<byte> -> Option<Envelope>)
    requires unmarshal(body1).None? && unmarshal(body2).None?
    requires DecodeError(code1, Success(body1), unmarshal) == DecodeError(code2, Success(body2), unmarshal)
    ensures code1 == code2
  {
  }

  // ---------------------------------------------------------------------
  // The client
  // ---------------------------------------------------------------------

  /** `Client`: its fields are written by the options and, for the base URL, by `do`. */
  class Client {
    var token: string
    var model: string
    var baseURL: string
    var vertexProjectID: string
    var vertexLocation: string
    var httpClient: Option<Doer>
    var anthropicVersion: string
    var useLegacyTextCompletionsAPI: bool

    function Config(): ClientConfig
      reads this
    {
      ClientConfig(token, model, baseURL, vertexProjectID, vertexLocation, httpClient,
                   anthropicVersion, useLegacyTextCompletionsAPI)
    }

    /** The struct literal of `New`: token and model as given, one trailing "/" trimmed from the base URL. */
    constructor (token: string, model: string, baseURL: string)
      ensures Config() == Initial(token, model, baseURL)
    {
      this.token := token;
      this.model := model;
      this.baseURL := Text.TrimSuffix(baseURL, "/");
      vertexProjectID := "";
      vertexLocation := "";
      httpClient := None;
      anthropicVersion := "";
      useLegacyTextCompletionsAPI := false;
    }

    /** Runs one option closure on this client. */
    method Apply(o: ClientOption) returns (err: Option<Error>)
      modifies this
      ensures ApplyOption(old(Config()), o).Success? ==> err == None && Config() == ApplyOption(old(Config()), o).value
      ensures ApplyOption(old(Config()), o).Failure? ==> err == Some(ApplyOption(old(Config()), o).error) && Config() == old(Config())
    {
      err := None;
      match o
      case WithVertexProjectID(p) => vertexProjectID := p;
      case WithVertexLocation(l) => vertexLocation := l;
      case WithAnthropicVersion(v) => anthropicVersion := v;
      case WithHTTPClient(d) => httpClient := d;
      case WithLegacyTextCompletionsAPI(b) => useLegacyTextCompletionsAPI := b;
      case Rejecting(e) => err := Some(e);
    }

    /** `setHeaders`: writes the header policy of this client into `req`. */
    method SetHeaders(req: Request)
      modifies req
      ensures req.header == old(req.header) + HeaderPolicy(Config())
      ensures req.url == old(req.url) && req.body == old(req.body)
    {
      req.Set("Content-Type", ContentType);
      if vertexProjectID != "" {
        req.Set("Authorization", "Bearer " + token);
      } else {
        req.Set("x-api-key", token);
      }
      if anthropicVersion != "" {
        req.Set("anthropic-version", anthropicVersion);
      } else if vertexProjectID != "" {
        req.Set("anthropic-version", VertexAnthropicVersion);
      } else {
        req.Set("anthropic-version", DefaultAnthropicVersion);
      }
    }

    /**
     * The request `do` builds for `path`: the URL of the addressing mode and
     * the headers of `setHeaders`. In direct mode an empty base URL is
     * replaced by the default, and the client keeps the replacement.
     */
    method Do(path: string, payload: seq<byte>) returns (req: Request)
      modifies this
      ensures fresh(req)
      ensures req.url == RequestURL(old(Config()), path)
      ensures req.header == HeaderPolicy(old(Config()))
      ensures req.body == payload
      ensures Config() == Addressed(old(Config()))
    {
      var url: string;
      if vertexProjectID == "" {
        if baseURL == "" {
          baseURL := DefaultBaseURL;
        }
        url := baseURL + path;
      } else {
        url := VertexURL(vertexLocation, vertexProjectID, model);
      }
      req := new Request(url, payload);
      SetHeaders(req);
    }

    /**
     * `CreateMessage`: validates the tool choice, then the tools, and only
     * when both succeed hands the payload on for sending.
     */
    method CreateMessage<M, S>(r: MessageRequest<M, S>) returns (d: Dispatch<M, S>)
      ensures HandleToolChoice(r.toolChoice).Failure? ==> d == Rejected(HandleToolChoice(r.toolChoice).error)
      ensures HandleToolChoice(r.toolChoice).Success? && TranslateTools(r.tools).Failure? ==>
        d == Rejected(TranslateTools(r.tools).error)
      ensures d.Dispatched? <==> HandleToolChoice(r.toolChoice).Success? && TranslateTools(r.tools).Success?
      ensures d.Dispatched? ==>
        d.payload == MessagePayload(r.model, r.messages, r.system, r.maxTokens, r.stopWords, r.stream, r.topK,
                                    TranslateTools(r.tools).value, HandleToolChoice(r.toolChoice).value)
    {
      var toolChoice := HandleToolChoice(r.toolChoice);
      if toolChoice.Failure? {
        return Rejected(toolChoice.error);
      }
      var tools := HandleTools(r.tools);
      if tools.Failure? {
        return Rejected(tools.error);
      }
      d := Dispatched(MessagePayload(r.model, r.messages, r.system, r.maxTokens, r.stopWords, r.stream, r.topK,
                                     tools.value, toolChoice.value));
    }
  }

  /** `New`: builds the client and runs the options in order; no client when one fails. */
  method New(token: string, model: string, baseURL: string, opts: seq<ClientOption>) returns (c: Client?, err: Option<Error>)
    ensures ApplyOptions(Initial(token, model, baseURL), opts).Success? ==>
      c != null && fresh(c) && err == None && c.Config() == ApplyOptions(Initial(token, model, baseURL), opts).value
    ensures ApplyOptions(Initial(token, model, baseURL), opts).Failure? ==>
      c == null && err == Some(ApplyOptions(Initial(token, model, baseURL), opts).error)
  {
    var client := new Client(token, model, baseURL);
    var i := 0;
    while i < |opts|
      invariant 0 <= i <= |opts|
      invariant fresh(client)
      invariant ApplyOptions(Initial(token, model, baseURL), opts) == ApplyOptions(client.Config(), opts[i..])
    {
      assert opts[i..][1..] == opts[i + 1..];
      var e := client.Apply(opts[i]);
      if e.Some? {
        return null, e;
      }
      i := i + 1;
    }
    return client, None;
  }
}
