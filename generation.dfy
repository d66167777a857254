/**
 * Generation parameters of chat.py: the values sent with every request, the fixed
 * table of presets that overwrite three of them at once, and the validation that
 * `/params <name> <value>` applies before it changes one of them.
 */
module Generation {
  import opened Wrappers

  /** `_temperature`, `_max_tokens`, `_top_p`, `_top_k` and `_stop_sequences`. */
  datatype Params = Params(
    temperature: real,
    maxTokens: int,
    topP: real,
    topK: int,
    stopSequences: seq<string>)
  {
    /** The ranges `/params` enforces; `top_k == 0` means "not sent". */
    predicate InRange() {
      0.0 <= temperature <= 1.0 && maxTokens >= 1 && 0.0 <= topP <= 1.0 && topK >= 0
    }

    /** The parameters after `/params` set one of them. */
    function With(s: Setting): Params {
      match s
      case Temperature(v) => this.(temperature := v)
      case MaxTokens(n) => this.(maxTokens := n)
      case TopP(v) => this.(topP := v)
      case TopK(n) => this.(topK := n)
    }

    /** The parameters after a preset was applied: its three values, the rest kept. */
    function WithPreset(p: Preset): Params {
      this.(temperature := p.temperature, topP := p.topP, topK := p.topK)
    }
  }

  /** One entry of `PRESETS`. */
  datatype Preset = Preset(temperature: real, topP: real, topK: int) {
    predicate InRange() {
      0.0 <= temperature <= 1.0 && 0.0 <= topP <= 1.0 && topK >= 0
    }
  }

  /** The `PRESETS` dictionary, in its declaration order. */
  const Presets: seq<(string, Preset)> := [
    ("precise", Preset(0.0, 0.5, 10)),
    ("balanced", Preset(0.7, 1.0, 0)),
    ("creative", Preset(1.0, 1.0, 0))
  ]

  function Keys(table: seq<(string, Preset)>): (r: seq<string>)
    ensures |r| == |table|
    ensures forall k :: 0 <= k < |table| ==> r[k] == table[k].0
  {
    if table == [] then [] else [table[0].0] + Keys(table[1..])
  }

  /** The first entry of `table` under `name`, as a dictionary lookup would find it. */
  function Find(table: seq<(string, Preset)>, name: string): (r: Option<Preset>)
    ensures r.Some? <==> name in Keys(table)
    ensures r.Some? ==> (name, r.value) in table
  {
    if table == [] then None
    else if table[0].0 == name then Some(table[0].1)
    else
      var r := Find(table[1..], name);
      assert Keys(table) == [table[0].0] + Keys(table[1..]);
      r
  }

  /**
   * `PRESETS[name]` when `name in PRESETS`: it finds exactly the three named presets, and
   * each of them lies in the ranges that `/params` enforces.
   */
  function LookupPreset(name: string): (r: Option<Preset>)
    ensures r.Some? <==> name in ["precise", "balanced", "creative"]
    ensures r.Some? ==> (name, r.value) in Presets && r.value.InRange()
  {
    assert Keys(Presets) == ["precise", "balanced", "creative"];
    Find(Presets, name)
  }

  /** Applying a preset to parameters that are in range keeps them in range. */
  lemma WithPresetInRange(params: Params, p: Preset)
    requires p.InRange()
    ensures params.InRange() ==> params.WithPreset(p).InRange()
    ensures params.WithPreset(p).maxTokens == params.maxTokens
    ensures params.WithPreset(p).stopSequences == params.stopSequences
  {
  }

  /** The three presets, by name: their temperature, top_p and top_k. */
  lemma PresetValues()
    ensures LookupPreset("precise") == Some(Preset(0.0, 0.5, 10))
    ensures LookupPreset("balanced") == Some(Preset(0.7, 1.0, 0))
    ensures LookupPreset("creative") == Some(Preset(1.0, 1.0, 0))
  {
    assert Presets[0].0 == "precise" && Presets[1].0 == "balanced";
  }

  /** The single parameter that a successful `/params` assigns, with its parsed value. */
  datatype Setting = Temperature(t: real) | MaxTokens(n: int) | TopP(p: real) | TopK(k: int) {
    function Name(): string {
      match this
      case Temperature(_) => "temperature"
      case MaxTokens(_) => "max_tokens"
      case TopP(_) => "top_p"
      case TopK(_) => "top_k"
    }

    /** The value is what the parser of this parameter's type made of `value`. */
    predicate ParsedFrom(value: string, parseFloat: string -> Option<real>,
                         parseInt: string -> Option<int>) {
      match this
      case Temperature(v) => parseFloat(value) == Some(v)
      case MaxTokens(n) => parseInt(value) == Some(n)
      case TopP(v) => parseFloat(value) == Some(v)
      case TopK(n) => parseInt(value) == Some(n)
    }

    /** The range check `/params` makes for this parameter. */
    predicate Admissible() {
      match this
      case Temperature(v) => 0.0 <= v <= 1.0
      case MaxTokens(n) => n >= 1
      case TopP(v) => 0.0 <= v <= 1.0
      case TopK(n) => n >= 0
    }
  }

  /** Why `/params <name> <value>` refused to change anything. */
  datatype ParamError =
    | UnknownParameter(name: string)
    | InvalidValue(name: string, value: string)
    | OutOfRange(name: string, constraint: string)

  /** The constraint named in the out-of-range message of each parameter. */
  function Constraint(name: string): string {
    if name == "max_tokens" then "must be at least 1"
    else if name == "top_k" then "must be 0 or greater"
    else "must be between 0.0 and 1.0"
  }

  predicate IsFloatParam(name: string) {
    name == "temperature" || name == "top_p"
  }

  predicate IsIntParam(name: string) {
    name == "max_tokens" || name == "top_k"
  }

  /**
   * The decision of the `try` block of `/params`: which parameter `name` is, whether
   * `value` parses (`float()` for temperature and top_p, `int()` for max_tokens and
   * top_k, supplied here as `parseFloat` and `parseInt`), and whether it is in range.
   */
  function CheckParam(name: string, value: string,
                      parseFloat: string -> Option<real>,
                      parseInt: string -> Option<int>): (r: Result<Setting, ParamError>)
    ensures r.Success? ==> r.value.Name() == name && r.value.Admissible()
    ensures r.Success? ==> r.value.ParsedFrom(value, parseFloat, parseInt)
    ensures !IsFloatParam(name) && !IsIntParam(name) ==> r == Failure(UnknownParameter(name))
    ensures IsFloatParam(name) ==>
      match parseFloat(value)
      case None => r == Failure(InvalidValue(name, value))
      case Some(v) => r.Success? <==> 0.0 <= v <= 1.0
    ensures IsIntParam(name) ==>
      match parseInt(value)
      case None => r == Failure(InvalidValue(name, value))
      case Some(n) => r.Success? <==> n >= (if name == "max_tokens" then 1 else 0)
    ensures r.Failure? && r.error.OutOfRange? ==> r.error == OutOfRange(name, Constraint(name))
  {
    if name == "temperature" then
      match parseFloat(value)
      case None => Failure(InvalidValue(name, value))
      case Some(v) =>
        if !(0.0 <= v <= 1.0) then Failure(OutOfRange(name, "must be between 0.0 and 1.0"))
        else Success(Temperature(v))
    else if name == "max_tokens" then
      match parseInt(value)
      case None => Failure(InvalidValue(name, value))
      case Some(n) =>
        if n < 1 then Failure(OutOfRange(name, "must be at least 1")) else Success(MaxTokens(n))
    else if name == "top_p" then
      match parseFloat(value)
      case None => Failure(InvalidValue(name, value))
      case Some(v) =>
        if !(0.0 <= v <= 1.0) then Failure(OutOfRange(name, "must be between 0.0 and 1.0"))
        else Success(TopP(v))
    else if name == "top_k" then
      match parseInt(value)
      case None => Failure(InvalidValue(name, value))
      case Some(n) =>
        if n < 0 then Failure(OutOfRange(name, "must be 0 or greater")) else Success(TopK(n))
    else
      Failure(UnknownParameter(name))
  }

  /**
   * Setting one parameter changes exactly that field to the parsed value, and keeps
   * parameters that were in range in range.
   */
  lemma WithChangesOnlyNamedField(params: Params, s: Setting)
    ensures s.Temperature? ==> params.With(s) == params.(temperature := s.t)
    ensures s.MaxTokens? ==> params.With(s) == params.(maxTokens := s.n)
    ensures s.TopP? ==> params.With(s) == params.(topP := s.p)
    ensures s.TopK? ==> params.With(s) == params.(topK := s.k)
    ensures params.InRange() && s.Admissible() ==> params.With(s).InRange()
  {
  }
}
