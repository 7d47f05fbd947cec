/**
 * The model catalogue of backend/config/models.py: the `OpenAIModel`
 * enumeration of nineteen descriptors, the two defaults, and the
 * lookup by name.
 */
module ModelCatalogue {
  import opened Common
  import Settings

  /** The dictionary each enumeration member carries. */
  datatype ModelDescriptor = ModelDescriptor(
    name: string,
    contextWindow: nat,
    useCases: seq<string>,
    costPer1kTokens: real,
    supportsTemperature: bool)

  /** The members of `OpenAIModel`, in declaration order. */
  datatype OpenAIModel =
    | O3Mini
    | O1
    | O1Mini
    | O1Pro
    | Gpt41
    | Gpt4o
    | Gpt4oAudio
    | ChatGpt4o
    | Gpt41Mini
    | Gpt41Nano
    | Gpt4oMini
    | Gpt4oMiniAudio
    | Gpt4Turbo
    | Gpt4
    | Gpt4_32k
    | Gpt35Turbo
    | Gpt35TurboInstruct
    | Embedding3Small
    | Embedding3Large

  /** `member.value`: the descriptor dictionary, assembled from its five entries below. */
  function Value(m: OpenAIModel): ModelDescriptor {
    ModelDescriptor(Name(m), ContextWindow(m), UseCases(m), CostPer1kTokens(m), SupportsTemperature(m))
  }

  /** The `"name"` entry of each member. */
  function Name(m: OpenAIModel): string {
    match m
    case O3Mini => "o3-mini"
    case O1 => "o1"
    case O1Mini => "o1-mini"
    case O1Pro => "o1-pro"
    case Gpt41 => "gpt-4.1"
    case Gpt4o => "gpt-4o"
    case Gpt4oAudio => "gpt-4o-audio-preview"
    case ChatGpt4o => "chatgpt-4o-latest"
    case Gpt41Mini => "gpt-4.1-mini"
    case Gpt41Nano => "gpt-4.1-nano"
    case Gpt4oMini => "gpt-4o-mini"
    case Gpt4oMiniAudio => "gpt-4o-mini-audio-preview"
    case Gpt4Turbo => "gpt-4-turbo-preview"
    case Gpt4 => "gpt-4"
    case Gpt4_32k => "gpt-4-32k"
    case Gpt35Turbo => "gpt-3.5-turbo"
    case Gpt35TurboInstruct => "gpt-3.5-turbo-instruct"
    case Embedding3Small => "text-embedding-3-small"
    case Embedding3Large => "text-embedding-3-large"
  }

  /** The `"context_window"` entry of each member. */
  function ContextWindow(m: OpenAIModel): nat {
    match m
    case O3Mini => 128000
    case O1 => 128000
    case O1Mini => 128000
    case O1Pro => 128000
    case Gpt41 => 128000
    case Gpt4o => 128000
    case Gpt4oAudio => 128000
    case ChatGpt4o => 128000
    case Gpt41Mini => 128000
    case Gpt41Nano => 128000
    case Gpt4oMini => 128000
    case Gpt4oMiniAudio => 128000
    case Gpt4Turbo => 128000
    case Gpt4 => 8192
    case Gpt4_32k => 32768
    case Gpt35Turbo => 16384
    case Gpt35TurboInstruct => 4096
    case Embedding3Small => 8191
    case Embedding3Large => 8191
  }

  /** The `"use_cases"` entry of each member. */
  function UseCases(m: OpenAIModel): seq<string> {
    match m
    case O3Mini => ["Fast, flexible reasoning", "Multi-step tasks", "Complex problem solving"]
    case O1 => ["High-intelligence reasoning", "Complex analysis", "Advanced problem solving"]
    case O1Mini => ["Fast reasoning", "Cost-effective analysis", "Quick problem solving"]
    case O1Pro => ["Advanced reasoning", "High-precision analysis", "Complex multi-step tasks"]
    case Gpt41 => ["Complex tasks", "Advanced reasoning", "High-precision responses"]
    case Gpt4o => ["Fast, intelligent responses", "Flexible task handling", "General purpose chat"]
    case Gpt4oAudio => ["Audio input/output", "Voice interactions", "Audio processing"]
    case ChatGpt4o => ["ChatGPT-like interactions", "Conversational AI", "General purpose chat"]
    case Gpt41Mini => ["Balanced intelligence and speed", "Cost-effective tasks", "General purpose chat"]
    case Gpt41Nano => ["Fastest responses", "Most cost-effective", "Simple tasks"]
    case Gpt4oMini => ["Focused tasks", "Fast responses", "Cost-effective chat"]
    case Gpt4oMiniAudio => ["Audio input/output", "Voice interactions", "Cost-effective audio processing"]
    case Gpt4Turbo => ["Complex reasoning", "Answer generation", "Question improvement", "Knowledge verification"]
    case Gpt4 => ["Answer generation", "Question improvement", "Knowledge verification"]
    case Gpt4_32k => ["Long-form content analysis", "Large document processing", "Complex multi-step reasoning"]
    case Gpt35Turbo => ["Query generation", "Initial question processing", "Simple reasoning tasks"]
    case Gpt35TurboInstruct => ["Structured tasks", "Checklist generation", "Precise instruction following"]
    case Embedding3Small => ["Knowledge base management", "Semantic search", "Document comparison"]
    case Embedding3Large => ["High-precision embeddings", "Advanced semantic search", "Complex document analysis"]
  }

  /** The `"cost_per_1k_tokens"` entry of each member. */
  function CostPer1kTokens(m: OpenAIModel): real {
    match m
    case O3Mini => 0.01
    case O1 => 0.02
    case O1Mini => 0.015
    case O1Pro => 0.03
    case Gpt41 => 0.03
    case Gpt4o => 0.02
    case Gpt4oAudio => 0.02
    case ChatGpt4o => 0.02
    case Gpt41Mini => 0.015
    case Gpt41Nano => 0.01
    case Gpt4oMini => 0.01
    case Gpt4oMiniAudio => 0.01
    case Gpt4Turbo => 0.01
    case Gpt4 => 0.03
    case Gpt4_32k => 0.06
    case Gpt35Turbo => 0.001
    case Gpt35TurboInstruct => 0.0015
    case Embedding3Small => 0.00002
    case Embedding3Large => 0.00013
  }

  /** The `"supports_temperature"` entry of each member. */
  function SupportsTemperature(m: OpenAIModel): bool {
    match m
    case O3Mini => false
    case O1 => false
    case O1Mini => false
    case O1Pro => false
    case Gpt41 => true
    case Gpt4o => true
    case Gpt4oAudio => true
    case ChatGpt4o => true
    case Gpt41Mini => true
    case Gpt41Nano => true
    case Gpt4oMini => true
    case Gpt4oMiniAudio => true
    case Gpt4Turbo => true
    case Gpt4 => true
    case Gpt4_32k => true
    case Gpt35Turbo => true
    case Gpt35TurboInstruct => true
    case Embedding3Small => false
    case Embedding3Large => false
  }

  /** Iteration order of the enumeration: declaration order, every member once. */
  const Members: seq<OpenAIModel> := [O3Mini, O1, O1Mini, O1Pro, Gpt41, Gpt4o, Gpt4oAudio, ChatGpt4o, Gpt41Mini, Gpt41Nano, Gpt4oMini, Gpt4oMiniAudio, Gpt4Turbo, Gpt4, Gpt4_32k, Gpt35Turbo, Gpt35TurboInstruct, Embedding3Small, Embedding3Large]

  /** The descriptors in iteration order. */
  function Catalogue(): (table: seq<ModelDescriptor>)
    ensures |table| == |Members|
    ensures forall i :: 0 <= i < |Members| ==> table[i] == Value(Members[i])
  {
    seq(|Members|, i requires 0 <= i < |Members| => Value(Members[i]))
  }

  const DEFAULT_MODEL: string := Value(Gpt4o).name
  const DEFAULT_EMBEDDING_MODEL: string := Value(Embedding3Small).name

  /** The O-series reasoning models. */
  predicate IsReasoning(m: OpenAIModel) {
    m.O3Mini? || m.O1? || m.O1Mini? || m.O1Pro?
  }

  /** The embedding models. */
  predicate IsEmbedding(m: OpenAIModel) {
    m.Embedding3Small? || m.Embedding3Large?
  }

  /** The table has nineteen entries and lists every member exactly once. */
  lemma MembersComplete(m: OpenAIModel)
    ensures |Members| == 19
    ensures m in Members
    ensures forall i, j :: 0 <= i < j < |Members| ==> Members[i] != Members[j]
  {
  }

  /** Temperature is unsupported exactly by the reasoning and the embedding models. */
  lemma TemperatureSupport(m: OpenAIModel)
    ensures !SupportsTemperature(m) <==> IsReasoning(m) || IsEmbedding(m)
  {
  }

  /** No two members carry the same name. */
  lemma NamesDistinct(m1: OpenAIModel, m2: OpenAIModel)
    requires m1 != m2
    ensures Name(m1) != Name(m2)
  {
  }

  /** The first position in `table` whose descriptor is named `name` (the loop with early return). */
  function FindIndex(table: seq<ModelDescriptor>, name: string): (r: Option<nat>)
    ensures r.Some? ==> r.value < |table| && table[r.value].name == name
    ensures r.Some? ==> forall j :: 0 <= j < r.value ==> table[j].name != name
    ensures r.None? <==> forall j :: 0 <= j < |table| ==> table[j].name != name
    decreases |table|
  {
    if table == [] then None
    else if table[0].name == name then Some(0)
    else
      match FindIndex(table[1..], name)
      case None => None
      case Some(i) => Some(i + 1)
  }

  /**
   * `get_model_config(name)`: the descriptor named `name`, or the
   * ValueError raised when no member has that name.
   */
  function GetModelConfig(name: string): (r: Result<ModelDescriptor>)
    ensures r.Success? <==> exists m :: Value(m).name == name
    ensures r.Success? ==> r.value.name == name && exists m :: r.value == Value(m)
    ensures r.Failure? ==> r.message == "Model " + name + " not found in configuration"
  {
    var table := Catalogue();
    match FindIndex(table, name)
    case Some(i) =>
      assert table[i] == Value(Members[i]);
      Success(table[i])
    case None =>
      assert forall m :: Value(m).name != name by {
        forall m ensures Value(m).name != name {
          MembersComplete(m);
          var i :| 0 <= i < |Members| && Members[i] == m;
          assert table[i] == Value(m);
        }
      }
      Failure("Model " + name + " not found in configuration")
  }

  /** Looking up a member's name returns that member's descriptor and no other. */
  lemma LookupUnique(m: OpenAIModel)
    ensures GetModelConfig(Value(m).name) == Success(Value(m))
  {
    MembersComplete(m);
    var k :| 0 <= k < |Members| && Members[k] == m;
    var table := Catalogue();
    assert table[k].name == Name(m);
    var i := FindIndex(table, Name(m)).value;
    assert table[i] == Value(Members[i]);
    if Members[i] != m {
      NamesDistinct(Members[i], m);
    }
  }

  /** The catalogue default is "gpt-4o" and its lookup returns the GPT4O entry. */
  lemma DefaultModelResolves()
    ensures DEFAULT_MODEL == "gpt-4o"
    ensures GetModelConfig(DEFAULT_MODEL) == Success(Value(Gpt4o))
  {
    LookupUnique(Gpt4o);
  }

  /** The embedding default is "text-embedding-3-small" and its lookup returns that entry. */
  lemma DefaultEmbeddingModelResolves()
    ensures DEFAULT_EMBEDDING_MODEL == "text-embedding-3-small"
    ensures GetModelConfig(DEFAULT_EMBEDDING_MODEL) == Success(Value(Embedding3Small))
  {
    LookupUnique(Embedding3Small);
  }

  /** The model the agent settings name, "gpt-4", is in the catalogue with an 8192-token window. */
  lemma AgentModelResolves()
    ensures GetModelConfig(Settings.DEFAULT_MODEL) == Success(Value(Gpt4))
    ensures Value(Gpt4).contextWindow == 8192
  {
    var agentModel := Value(Gpt4).name;
    assert agentModel == Settings.DEFAULT_MODEL;
    LookupUnique(Gpt4);
  }
}
