/**
 * The front end's `options` record and its `Option` setters. Each setter is
 * a closure that assigns one field of the record in place; the record is
 * later used to build the client.
 */
module Anthropic {
  import Wrappers
  import AnthropicClient

  /** The value of every field of `options`. */
  datatype OptionsRecord = OptionsRecord(
    token: string,
    model: string,
    baseURL: string,
    httpClient: Wrappers.Option<AnthropicClient.Doer>,
    vertexProjectID: string,
    vertexLocation: string,
    anthropicVersion: string,
    useLegacyTextCompletionsAPI: bool)

  /** An `Option` closure, by the setter that made it. */
  datatype Option =
    | WithToken(token: string)
    | WithModel(model: string)
    | WithBaseURL(baseURL: string)
    | WithVertexProjectID(projectID: string)
    | WithVertexLocation(location: string)
    | WithAnthropicVersion(version: string)
    | WithHTTPClient(client: Wrappers.Option<AnthropicClient.Doer>)

  /** The fields of `options`, to state which one a setter touches. */
  datatype Field =
    | TokenField | ModelField | BaseURLField | HTTPClientField
    | VertexProjectIDField | VertexLocationField | AnthropicVersionField | LegacyField

  datatype FieldValue = StrValue(s: string) | DoerValue(d: Wrappers.Option<AnthropicClient.Doer>) | FlagValue(b: bool)

  function Get(rec: OptionsRecord, f: Field): FieldValue {
    match f
    case TokenField => StrValue(rec.token)
    case ModelField => StrValue(rec.model)
    case BaseURLField => StrValue(rec.baseURL)
    case HTTPClientField => DoerValue(rec.httpClient)
    case VertexProjectIDField => StrValue(rec.vertexProjectID)
    case VertexLocationField => StrValue(rec.vertexLocation)
    case AnthropicVersionField => StrValue(rec.anthropicVersion)
    case LegacyField => FlagValue(rec.useLegacyTextCompletionsAPI)
  }

  /** The field a setter assigns. */
  function Target(o: Option): Field {
    match o
    case WithToken(_) => TokenField
    case WithModel(_) => ModelField
    case WithBaseURL(_) => BaseURLField
    case WithVertexProjectID(_) => VertexProjectIDField
    case WithVertexLocation(_) => VertexLocationField
    case WithAnthropicVersion(_) => AnthropicVersionField
    case WithHTTPClient(_) => HTTPClientField
  }

  /** The value a setter assigns, exactly as the caller passed it. */
  function Assigned(o: Option): FieldValue {
    match o
    case WithToken(t) => StrValue(t)
    case WithModel(m) => StrValue(m)
    case WithBaseURL(u) => StrValue(u)
    case WithVertexProjectID(p) => StrValue(p)
    case WithVertexLocation(l) => StrValue(l)
    case WithAnthropicVersion(v) => StrValue(v)
    case WithHTTPClient(d) => DoerValue(d)
  }

  /** The record after running one setter. */
  function Set(rec: OptionsRecord, o: Option): (r: OptionsRecord)
    ensures Get(r, Target(o)) == Assigned(o)
  {
    match o
    case WithToken(t) => rec.(token := t)
    case WithModel(m) => rec.(model := m)
    case WithBaseURL(u) => rec.(baseURL := u)
    case WithVertexProjectID(p) => rec.(vertexProjectID := p)
    case WithVertexLocation(l) => rec.(vertexLocation := l)
    case WithAnthropicVersion(v) => rec.(anthropicVersion := v)
    case WithHTTPClient(d) => rec.(httpClient := d)
  }

  /**
   * Each setter stores its argument verbatim (no trimming or defaulting of
   * the base URL, for one) in its own field and changes no other field.
   */
  lemma SetterAssignsOnlyItsField(rec: OptionsRecord, o: Option, f: Field)
    ensures Get(Set(rec, o), f) == if f == Target(o) then Assigned(o) else Get(rec, f)
  {
  }

  /** Running the same setter twice is the same as running it once. */
  lemma SetterIdempotent(rec: OptionsRecord, o: Option)
    ensures Set(Set(rec, o), o) == Set(rec, o)
  {
  }

  /** Of two setters of the same field, the later one wins. */
  lemma LaterSetterWins(rec: OptionsRecord, o1: Option, o2: Option)
    requires Target(o1) == Target(o2)
    ensures Set(Set(rec, o1), o2) == Set(rec, o2)
  {
  }

  /** Setters of different fields can run in either order. */
  lemma SettersOfDifferentFieldsCommute(rec: OptionsRecord, o1: Option, o2: Option)
    requires Target(o1) != Target(o2)
    ensures Set(Set(rec, o1), o2) == Set(Set(rec, o2), o1)
  {
  }

  /** The record after running the setters in order. */
  function SetAll(rec: OptionsRecord, opts: seq<Option>): (r: OptionsRecord)
    ensures forall f :: (forall i :: 0 <= i < |opts| ==> Target(opts[i]) != f) ==> Get(r, f) == Get(rec, f)
    decreases |opts|
  {
    if opts == [] then rec
    else
      var r := SetAll(Set(rec, opts[0]), opts[1..]);
      assert forall f :: (forall i :: 0 <= i < |opts| ==> Target(opts[i]) != f) ==> Get(r, f) == Get(rec, f) by {
        forall f | forall i :: 0 <= i < |opts| ==> Target(opts[i]) != f
          ensures Get(r, f) == Get(rec, f)
        {
          assert forall i :: 0 <= i < |opts[1..]| ==> Target(opts[1..][i]) != f by {
            forall i | 0 <= i < |opts[1..]| ensures Target(opts[1..][i]) != f {
              assert opts[1..][i] == opts[i + 1];
            }
          }
          assert Target(opts[0]) != f;
        }
      }
      r
  }

  /** The value of the last setter of `f` in `opts`, or `initial` when there is none. */
  function LastAssigned(opts: seq<Option>, f: Field, initial: FieldValue): FieldValue {
    if opts == [] then initial
    else if Target(opts[|opts| - 1]) == f then Assigned(opts[|opts| - 1])
    else LastAssigned(opts[..|opts| - 1], f, initial)
  }

  lemma {:induction false} SetAllSnoc(rec: OptionsRecord, opts: seq<Option>, o: Option)
    ensures SetAll(rec, opts + [o]) == Set(SetAll(rec, opts), o)
    decreases |opts|
  {
    if opts == [] {
      assert [o][1..] == [];
    } else {
      assert (opts + [o])[1..] == opts[1..] + [o];
      SetAllSnoc(Set(rec, opts[0]), opts[1..], o);
    }
  }

  /** After any run of setters, every field holds the value of its last setter. */
  lemma {:induction false} SetAllLastWins(rec: OptionsRecord, opts: seq<Option>, f: Field)
    ensures Get(SetAll(rec, opts), f) == LastAssigned(opts, f, Get(rec, f))
    decreases |opts|
  {
    if opts != [] {
      var front, o := opts[..|opts| - 1], opts[|opts| - 1];
      assert opts == front + [o];
      SetAllLastWins(rec, front, f);
      SetAllSnoc(rec, front, o);
      SetterAssignsOnlyItsField(SetAll(rec, front), o, f);
    }
  }

  /** The `options` record, updated in place by the setters. */
  class Options {
    var token: string
    var model: string
    var baseURL: string
    var httpClient: Wrappers.Option<AnthropicClient.Doer>
    var vertexProjectID: string
    var vertexLocation: string
    var anthropicVersion: string
    var useLegacyTextCompletionsAPI: bool

    function Record(): OptionsRecord
      reads this
    {
      OptionsRecord(token, model, baseURL, httpClient, vertexProjectID, vertexLocation,
                    anthropicVersion, useLegacyTextCompletionsAPI)
    }

    /** The zero value `options{}`. */
    constructor ()
      ensures Record() == OptionsRecord("", "", "", Wrappers.None, "", "", "", false)
    {
      token, model, baseURL := "", "", "";
      httpClient := Wrappers.None;
      vertexProjectID, vertexLocation, anthropicVersion := "", "", "";
      useLegacyTextCompletionsAPI := false;
    }

    /** Calls the closure `o` on this record. */
    method Apply(o: Option)
      modifies this
      ensures Record() == Set(old(Record()), o)
    {
      match o
      case WithToken(t) => token := t;
      case WithModel(m) => model := m;
      case WithBaseURL(u) => baseURL := u;
      case WithVertexProjectID(p) => vertexProjectID := p;
      case WithVertexLocation(l) => vertexLocation := l;
      case WithAnthropicVersion(v) => anthropicVersion := v;
      case WithHTTPClient(d) => httpClient := d;
    }
  }
}
