/**
 * The state of a `ChatSession` as a value, and the effect of every slash command and of
 * every streamed turn on it. The class in module Chat performs these effects in place;
 * its methods are proved to agree with the functions here, and the lemmas here state
 * what the session guarantees across commands and turns.
 */
module Session {
  import opened Wrappers
  import opened PyStr
  import opened Transcript
  import opened Generation

  /**
   * Everything a `ChatSession` holds: the model identifier, the generation parameters,
   * the system prompt, the transcript, the token counters, the active-preset marker and,
   * once `sys.exit` was called, the exit status.
   */
  datatype State = State(
    model: string,
    params: Params,
    systemPrompt: string,
    messages: seq<Turn>,
    inputTokens: nat,
    outputTokens: nat,
    activePreset: Option<string>,
    exitCode: Option<int>)
  {
    /** The marker names a preset only while that preset's three values are the current ones. */
    predicate PresetConsistent() {
      match activePreset
      case None => true
      case Some(name) =>
        LookupPreset(name).Some? && params.WithPreset(LookupPreset(name).value) == params
    }
  }

  /** The state right after construction, before any command or turn. */
  function Start(model: string, params: Params, systemPrompt: string): (s: State)
    ensures s.messages == [] && s.inputTokens == 0 && s.outputTokens == 0
    ensures s.activePreset == None && s.exitCode == None && s.PresetConsistent()
    ensures s.params == params && s.systemPrompt == systemPrompt && s.model == model
  {
    State(model, params, systemPrompt, [], 0, 0, None, None)
  }

  // ---------------------------------------------------------------------------------
  // Commands
  // ---------------------------------------------------------------------------------

  /** The keys of the `commands` dictionary of `handle_command`. */
  datatype Command =
    | SystemCmd | ClearCmd | QuitCmd | HistoryCmd | InfoCmd
    | SaveCmd | HelpCmd | ParamsCmd | PresetCmd

  function CommandName(c: Command): string {
    match c
    case SystemCmd => "/system"
    case ClearCmd => "/clear"
    case QuitCmd => "/quit"
    case HistoryCmd => "/history"
    case InfoCmd => "/info"
    case SaveCmd => "/save"
    case HelpCmd => "/help"
    case ParamsCmd => "/params"
    case PresetCmd => "/preset"
  }

  /** `commands[name]`, or `None` when `name not in commands`. */
  function LookupCommand(name: string): (r: Option<Command>)
    ensures r.Some? ==> CommandName(r.value) == name
    ensures r.None? ==> forall c: Command :: CommandName(c) != name
  {
    if name == "/system" then Some(SystemCmd)
    else if name == "/clear" then Some(ClearCmd)
    else if name == "/quit" then Some(QuitCmd)
    else if name == "/history" then Some(HistoryCmd)
    else if name == "/info" then Some(InfoCmd)
    else if name == "/save" then Some(SaveCmd)
    else if name == "/help" then Some(HelpCmd)
    else if name == "/params" then Some(ParamsCmd)
    else if name == "/preset" then Some(PresetCmd)
    else None
  }

  /**
   * How `handle_command` reads a line: no word at all (where the source's `parts[0]`
   * raises IndexError), a word that names no command, or a command with its argument.
   */
  datatype Line = NoToken | Unknown(name: string) | Invocation(command: Command, args: string)

  /**
   * The first whitespace-separated word, lower-cased, selects the command; the unsplit
   * rest of the line (leading whitespace removed) or `""` is its argument.
   */
  function ParseLine(input: string): (l: Line)
    ensures l.NoToken? <==> SplitOnce(input) == []
    ensures l.Unknown? ==>
      l.name == Lower(SplitOnce(input)[0]) && forall c: Command :: CommandName(c) != l.name
    ensures l.Invocation? ==>
      CommandName(l.command) == Lower(SplitOnce(input)[0]) &&
      l.args == (if |SplitOnce(input)| == 2 then SplitOnce(input)[1] else "")
  {
    var parts := SplitOnce(input);
    if |parts| == 0 then NoToken
    else
      var commandName := Lower(parts[0]);
      var args := if |parts| > 1 then parts[1] else "";
      match LookupCommand(commandName)
      case None => Unknown(commandName)
      case Some(c) => Invocation(c, args)
  }

  /** A line reads as no command at all exactly when it is blank. */
  lemma BlankLineHasNoToken(input: string)
    ensures ParseLine(input).NoToken? <==> AllSpace(input)
  {
    SplitOnceSpec(input);
  }

  /** What a command prints. Values stand in for the formatted text of the source. */
  datatype Report =
    | MissingCommand
    | UnknownCommand(name: string)
    | CurrentSystemPrompt(prompt: string)
    | SystemPromptReplaced(prompt: string)
    | HistoryCleared
    | Exiting
    | NoHistory
    | History(entries: seq<string>)
    | Info(model: string, temperature: real, maxTokens: int, topP: real, topK: int,
           stops: string, preset: string, totalMessages: nat,
           inputTokens: nat, outputTokens: nat)
    | SaveUsage
    /** Write `text` to the file `path`; whether the write succeeds is up to the file system. */
    | SaveTo(path: string, text: string)
    | HelpText
    | CurrentParams(params: Params)
    | ParamsUsage
    | ParamRejected(error: ParamError)
    | ParamSet(setting: Setting, value: string)
    | PresetList(table: seq<(string, Preset)>)
    | UnknownPreset(name: string, available: string)
    | PresetApplied(name: string)

  /** The state after a command, and what it printed. */
  datatype Step = Step(after: State, report: Report)

  /** `/system [prompt]`: show the prompt, or replace it and drop the transcript. */
  function SystemCommand(s: State, args: string): (r: Step)
    ensures args == "" ==> r.after == s
    ensures args != "" ==> r.after.systemPrompt == args && r.after.messages == []
    ensures args != "" ==> r.after == s.(systemPrompt := args, messages := [])
  {
    if args == "" then Step(s, CurrentSystemPrompt(s.systemPrompt))
    else Step(s.(systemPrompt := args, messages := []), SystemPromptReplaced(args))
  }

  /** `/clear`: drop the transcript; parameters, prompt, counters and preset marker stay. */
  function ClearCommand(s: State): (r: Step)
    ensures r.after == s.(messages := []) && r.report == HistoryCleared
  {
    Step(s.(messages := []), HistoryCleared)
  }

  /** `/quit`: `sys.exit(0)`; nothing else changes. */
  function QuitCommand(s: State): (r: Step)
    ensures r.after.exitCode == Some(0) && r.after.(exitCode := s.exitCode) == s
  {
    Step(s.(exitCode := Some(0)), Exiting)
  }

  /** `/history`: every turn's role and content, or a notice that there are none. */
  function HistoryReport(s: State): (r: Report)
    ensures r == NoHistory <==> s.messages == []
    ensures s.messages != [] ==> r == History(HistoryEntries(s.messages))
  {
    if s.messages == [] then NoHistory else History(HistoryEntries(s.messages))
  }

  /** `self._active_preset or "none"`: an absent or empty name shows as "none". */
  function PresetDisplay(p: Option<string>): (r: string)
    ensures p.Some? && p.value != "" ==> r == p.value
    ensures p.None? || p.value == "" ==> r == "none"
  {
    match p
    case None => "none"
    case Some(name) => if name == "" then "none" else name
  }

  /** `", ".join(self._stop_sequences) if self._stop_sequences else "none"`. */
  function StopDisplay(stops: seq<string>): string {
    if stops == [] then "none" else Join(", ", stops)
  }

  /** `/info`: the session configuration, transcript length and counters. */
  function InfoReport(s: State): (r: Report)
    ensures r.Info? && r.totalMessages == |s.messages|
    ensures r.inputTokens == s.inputTokens && r.outputTokens == s.outputTokens
    ensures r.model == s.model && r.maxTokens == s.params.maxTokens
    ensures r.temperature == s.params.temperature && r.topP == s.params.topP
    ensures r.topK == s.params.topK && r.preset == PresetDisplay(s.activePreset)
    ensures r.stops == (if s.params.stopSequences == [] then "none" else Join(", ", s.params.stopSequences))
  {
    Info(s.model, s.params.temperature, s.params.maxTokens, s.params.topP, s.params.topK,
         StopDisplay(s.params.stopSequences), PresetDisplay(s.activePreset),
         |s.messages|, s.inputTokens, s.outputTokens)
  }

  /** `/save <file>`: without a file name a usage error, else the transcript in save format. */
  function SaveReport(s: State, args: string): (r: Report)
    ensures args == "" ==> r == SaveUsage
    ensures args != "" ==> r.SaveTo? && r.path == args && r.text == SaveText(s.messages)
  {
    if args == "" then SaveUsage else SaveTo(args, SaveText(s.messages))
  }

  /**
   * `/params [name value]`: with no argument, show the parameters; otherwise set one of
   * them. Every outcome but a successful set leaves the whole session unchanged; a
   * successful set assigns exactly the named field its parsed, in-range value and clears
   * the active-preset marker.
   */
  function ParamsCommand(s: State, args: string,
                         parseFloat: string -> Option<real>,
                         parseInt: string -> Option<int>): (r: Step)
    ensures !r.report.ParamSet? ==> r.after == s
    ensures args == "" ==> r.report == CurrentParams(s.params)
    ensures args != "" && |SplitOnce(args)| < 2 ==> r.report == ParamsUsage
    ensures r.report.ParamSet? ==>
      |SplitOnce(args)| == 2 &&
      r.report.setting.Name() == Lower(SplitOnce(args)[0]) &&
      r.report.value == SplitOnce(args)[1] &&
      r.report.setting.Admissible() &&
      r.report.setting.ParsedFrom(r.report.value, parseFloat, parseInt) &&
      r.after == s.(params := s.params.With(r.report.setting), activePreset := None)
    ensures args != "" && |SplitOnce(args)| == 2 ==>
      (r.report.ParamSet? <==>
        CheckParam(Lower(SplitOnce(args)[0]), SplitOnce(args)[1], parseFloat, parseInt).Success?)
    ensures args != "" && |SplitOnce(args)| == 2 ==>
      var check := CheckParam(Lower(SplitOnce(args)[0]), SplitOnce(args)[1], parseFloat, parseInt);
      check.Failure? ==> r.report == ParamRejected(check.error)
  {
    if args == "" then Step(s, CurrentParams(s.params))
    else
      var parts := SplitOnce(args);
      if |parts| < 2 then Step(s, ParamsUsage)
      else
        var name, value := Lower(parts[0]), parts[1];
        match CheckParam(name, value, parseFloat, parseInt)
        case Failure(e) => Step(s, ParamRejected(e))
        case Success(setting) =>
          Step(s.(params := s.params.With(setting), activePreset := None), ParamSet(setting, value))
  }

  /**
   * `/preset [name]`: with no argument, list the presets; otherwise trim and lower-case
   * the name and, when it is one of the presets, take its temperature, top_p and top_k and
   * mark it active. Anything else leaves the session unchanged.
   */
  function PresetCommand(s: State, args: string): (r: Step)
    ensures !r.report.PresetApplied? ==> r.after == s
    ensures args == "" ==> r.report == PresetList(Presets)
    ensures r.report.UnknownPreset? ==> r.report.available == Join(", ", Keys(Presets))
    ensures args != "" && LookupPreset(Lower(Strip(args))).None? ==>
      r.report == UnknownPreset(Lower(Strip(args)), Join(", ", Keys(Presets)))
    ensures args != "" ==>
      (r.report.PresetApplied? <==> LookupPreset(Lower(Strip(args))).Some?)
    ensures r.report.PresetApplied? ==>
      var name := Lower(Strip(args));
      r.report.name == name && LookupPreset(name).Some? &&
      r.after == s.(params := s.params.WithPreset(LookupPreset(name).value),
                    activePreset := Some(name))
  {
    if args == "" then Step(s, PresetList(Presets))
    else
      var name := Lower(Strip(args));
      assert Keys(Presets) == ["precise", "balanced", "creative"];
      match LookupPreset(name)
      case None => Step(s, UnknownPreset(name, Join(", ", Keys(Presets))))
      case Some(p) =>
        Step(s.(params := s.params.WithPreset(p), activePreset := Some(name)), PresetApplied(name))
  }

  /** The names of the preset table, as `", ".join(PRESETS.keys())` prints them. */
  lemma PresetNamesJoined()
    ensures Join(", ", Keys(Presets)) == "precise, balanced, creative"
  {
    var names := ["precise", "balanced", "creative"];
    assert Keys(Presets) == names;
    assert names[1..] == ["balanced", "creative"] && names[1..][1..] == ["creative"];
    assert Join(", ", names) == "precise" + ", " + ("balanced" + ", " + "creative");
  }

  /** An unknown preset name is answered with the list of the three valid names. */
  lemma UnknownPresetListsNames(s: State, args: string)
    requires PresetCommand(s, args).report.UnknownPreset?
    ensures PresetCommand(s, args).report.available == "precise, balanced, creative"
  {
    PresetNamesJoined();
  }

  /**
   * `command(args)` for a recognised command. `/history`, `/info`, `/save` and `/help` only
   * report and leave the session as it is.
   */
  function Execute(s: State, c: Command, args: string,
                   parseFloat: string -> Option<real>,
                   parseInt: string -> Option<int>): (r: Step)
    ensures c == HistoryCmd || c == InfoCmd || c == SaveCmd || c == HelpCmd ==> r.after == s
  {
    match c
    case SystemCmd => SystemCommand(s, args)
    case ClearCmd => ClearCommand(s)
    case QuitCmd => QuitCommand(s)
    case HistoryCmd => Step(s, HistoryReport(s))
    case InfoCmd => Step(s, InfoReport(s))
    case SaveCmd => Step(s, SaveReport(s, args))
    case HelpCmd => Step(s, HelpText)
    case ParamsCmd => ParamsCommand(s, args, parseFloat, parseInt)
    case PresetCmd => PresetCommand(s, args)
  }

  /** `handle_command(line)`: a line that names no command changes nothing. */
  function Dispatch(s: State, line: string,
                    parseFloat: string -> Option<real>,
                    parseInt: string -> Option<int>): (r: Step)
    ensures !ParseLine(line).Invocation? ==> r.after == s
    ensures ParseLine(line).Unknown? ==> r.report == UnknownCommand(ParseLine(line).name)
  {
    match ParseLine(line)
    case NoToken => Step(s, MissingCommand)
    case Unknown(name) => Step(s, UnknownCommand(name))
    case Invocation(c, args) => Execute(s, c, args, parseFloat, parseInt)
  }

  /**
   * What no command can do: add to the transcript (it either stays or is emptied), touch
   * the token counters, the model or the stop sequences, exit with a status other than 0,
   * or take the parameters out of range or the preset marker out of step.
   */
  predicate KeepsInvariants(s: State, t: State) {
    && (t.messages == s.messages || t.messages == [])
    && t.inputTokens == s.inputTokens && t.outputTokens == s.outputTokens
    && t.model == s.model
    && t.params.stopSequences == s.params.stopSequences
    && (t.exitCode != s.exitCode ==> t.exitCode == Some(0))
    && (s.params.InRange() ==> t.params.InRange())
    && (s.PresetConsistent() ==> t.PresetConsistent())
  }

  lemma ParamsKeepsInvariants(s: State, args: string,
                              parseFloat: string -> Option<real>,
                              parseInt: string -> Option<int>)
    ensures KeepsInvariants(s, ParamsCommand(s, args, parseFloat, parseInt).after)
  {
    var r := ParamsCommand(s, args, parseFloat, parseInt);
    if r.report.ParamSet? {
      WithChangesOnlyNamedField(s.params, r.report.setting);
    }
  }

  lemma PresetKeepsInvariants(s: State, args: string)
    ensures KeepsInvariants(s, PresetCommand(s, args).after)
  {
    var r := PresetCommand(s, args);
    if r.report.PresetApplied? {
      var p := LookupPreset(r.report.name).value;
      WithPresetInRange(s.params, p);
      var t := r.after;
      assert t.params == s.params.WithPreset(p);
      assert t.params.WithPreset(p) == t.params;
      assert t.PresetConsistent();
    }
  }

  lemma ExecuteKeepsInvariants(s: State, c: Command, args: string,
                               parseFloat: string -> Option<real>,
                               parseInt: string -> Option<int>)
    ensures KeepsInvariants(s, Execute(s, c, args, parseFloat, parseInt).after)
    ensures var t := Execute(s, c, args, parseFloat, parseInt).after;
      t.messages != s.messages ==> c == ClearCmd || c == SystemCmd
    ensures var t := Execute(s, c, args, parseFloat, parseInt).after;
      t.systemPrompt != s.systemPrompt ==> c == SystemCmd && t.systemPrompt == args
  {
    match c
    case ParamsCmd => ParamsKeepsInvariants(s, args, parseFloat, parseInt);
    case PresetCmd => PresetKeepsInvariants(s, args);
    case _ =>
  }

  /**
   * Every command line keeps the invariants, and only `/clear` and `/system` with an
   * argument change the transcript; only `/system` changes the prompt, to its argument.
   */
  lemma DispatchInvariants(s: State, line: string,
                           parseFloat: string -> Option<real>,
                           parseInt: string -> Option<int>)
    ensures KeepsInvariants(s, Dispatch(s, line, parseFloat, parseInt).after)
    ensures var t := Dispatch(s, line, parseFloat, parseInt).after;
      t.messages != s.messages ==>
        ParseLine(line).Invocation? &&
        (ParseLine(line).command == ClearCmd || ParseLine(line).command == SystemCmd)
    ensures var t := Dispatch(s, line, parseFloat, parseInt).after;
      t.systemPrompt != s.systemPrompt ==>
        ParseLine(line).Invocation? && ParseLine(line).command == SystemCmd &&
        t.systemPrompt == ParseLine(line).args
  {
    var l := ParseLine(line);
    if l.Invocation? {
      ExecuteKeepsInvariants(s, l.command, l.args, parseFloat, parseInt);
    }
  }

  /** "precise" sets temperature 0.0, top_p 0.5 and top_k 10 and marks itself active. */
  lemma PresetPreciseExample(s: State)
    ensures var t := PresetCommand(s, "precise").after;
      t.params == s.params.(temperature := 0.0, topP := 0.5, topK := 10) &&
      t.activePreset == Some("precise") && t.messages == s.messages
  {
    StripWord("precise");
    LowerOfLowerCase("precise");
    PresetValues();
  }

  /** A successful manual set after any preset clears the marker. */
  lemma ManualSetClearsPreset(s: State, args: string,
                              parseFloat: string -> Option<real>,
                              parseInt: string -> Option<int>)
    requires ParamsCommand(s, args, parseFloat, parseInt).report.ParamSet?
    ensures ParamsCommand(s, args, parseFloat, parseInt).after.activePreset == None
    ensures PresetDisplay(ParamsCommand(s, args, parseFloat, parseInt).after.activePreset) == "none"
  {
  }

  // ---------------------------------------------------------------------------------
  // Streaming turns
  // ---------------------------------------------------------------------------------

  /** `usage.input_tokens` and `usage.output_tokens` of the final message. */
  datatype Usage = Usage(inputTokens: nat, outputTokens: nat)

  /** The four exception types `send_message` catches. */
  datatype ApiError = RateLimitError | ConnectionError | AuthenticationError | StatusError

  /** How a streamed call ends: its usage, or the exception it raised. */
  datatype Outcome = Completed(usage: Usage) | Failed(error: ApiError)

  /** The text fragments `stream.text_stream` yields, then how the call ends. */
  datatype Stream = Stream(fragments: seq<string>, outcome: Outcome)

  /** The keyword arguments of `messages.stream`; `None` stands for `NOT_GIVEN`. */
  datatype Request = Request(
    model: string,
    maxTokens: int,
    temperature: real,
    topP: real,
    topK: Option<int>,
    stopSequences: Option<seq<string>>,
    system: string,
    messages: seq<Turn>)

  /**
   * The request for one turn: top_k only when it is positive, stop sequences only when
   * there are some; every other value is sent as it is.
   */
  function RequestFor(p: Params, model: string, system: string, messages: seq<Turn>): (r: Request)
    ensures r.topK.Some? <==> p.topK > 0
    ensures r.topK.Some? ==> r.topK.value == p.topK
    ensures r.stopSequences.Some? <==> p.stopSequences != []
    ensures r.stopSequences.Some? ==> r.stopSequences.value == p.stopSequences
    ensures r.model == model && r.system == system && r.messages == messages
    ensures r.maxTokens == p.maxTokens && r.temperature == p.temperature && r.topP == p.topP
  {
    Request(model, p.maxTokens, p.temperature, p.topP,
            if p.topK > 0 then Some(p.topK) else None,
            if p.stopSequences != [] then Some(p.stopSequences) else None,
            system, messages)
  }

  /** The successive values handed to `live.update`: the text accumulated so far. */
  function Snapshots(fragments: seq<string>): seq<string> {
    seq(|fragments|, k requires 0 <= k < |fragments| => Concat(fragments[..k + 1]))
  }

  /** The live view only grows: each snapshot extends the one before and ends in the full text. */
  lemma SnapshotsGrow(fragments: seq<string>, k: nat)
    requires k < |fragments|
    ensures Snapshots(fragments)[k] <= Concat(fragments)
    ensures k + 1 < |fragments| ==> Snapshots(fragments)[k] <= Snapshots(fragments)[k + 1]
    ensures k + 1 == |fragments| ==> Snapshots(fragments)[k] == Concat(fragments)
  {
    var here := fragments[..k + 1];
    assert Snapshots(fragments)[k] == Concat(here);
    ConcatPrefix(fragments, k + 1);
    if k + 1 < |fragments| {
      SnapshotStep(fragments, k);
    } else {
      assert here == fragments;
    }
  }

  lemma SnapshotStep(fragments: seq<string>, k: nat)
    requires k + 1 < |fragments|
    ensures Concat(fragments[..k + 1]) <= Concat(fragments[..k + 2])
  {
    var longer := fragments[..k + 2];
    assert longer[..k + 1] == fragments[..k + 1];
    ConcatPrefix(longer, k + 1);
  }

  /** The state after one turn, the request that was sent and what was rendered. */
  datatype Exchange = Exchange(after: State, request: Request, renders: seq<string>)

  /**
   * `send_message(input)`: the user turn is appended and the request sent with it. On
   * success the assistant turn holds all fragments in order and the usage is added; on a
   * rate-limit, connection or status error the user turn is popped again, so the session
   * is exactly as before; on an authentication error the user turn stays and the process
   * exits with status 1.
   */
  function Send(s: State, input: string, stream: Stream): (x: Exchange)
    ensures x.request.messages == s.messages + [Turn(User, input)]
    ensures x.request == RequestFor(s.params, s.model, s.systemPrompt, x.request.messages)
    ensures x.renders == Snapshots(stream.fragments)
    ensures x.after.params == s.params && x.after.systemPrompt == s.systemPrompt
    ensures x.after.model == s.model && x.after.activePreset == s.activePreset
    ensures stream.outcome.Completed? ==>
      x.after.messages == s.messages + [Turn(User, input), Turn(Assistant, Concat(stream.fragments))]
    ensures stream.outcome.Completed? ==>
      && |x.after.messages| == |s.messages| + 2
      && x.after.messages[..|s.messages|] == s.messages
      && x.after.messages[|s.messages|] == Turn(User, input)
      && x.after.messages[|s.messages| + 1] == Turn(Assistant, Concat(stream.fragments))
      && x.after.inputTokens == s.inputTokens + stream.outcome.usage.inputTokens
      && x.after.outputTokens == s.outputTokens + stream.outcome.usage.outputTokens
      && x.after.exitCode == s.exitCode
    ensures stream.outcome.Failed? && stream.outcome.error != AuthenticationError ==>
      x.after == s
    ensures stream.outcome == Failed(AuthenticationError) ==>
      x.after == s.(messages := s.messages + [Turn(User, input)], exitCode := Some(1))
  {
    var pending := s.messages + [Turn(User, input)];
    var request := RequestFor(s.params, s.model, s.systemPrompt, pending);
    var fullText := Concat(stream.fragments);
    var after :=
      match stream.outcome
      case Completed(usage) =>
        s.(messages := pending + [Turn(Assistant, fullText)],
           inputTokens := s.inputTokens + usage.inputTokens,
           outputTokens := s.outputTokens + usage.outputTokens)
      case Failed(AuthenticationError) => s.(messages := pending, exitCode := Some(1))
      case Failed(_) => s.(messages := pending[..|pending| - 1]);
    assert pending[..|pending| - 1] == s.messages;
    Exchange(after, request, Snapshots(stream.fragments))
  }

  /** After a successful turn, `/save` writes the old text followed by the new exchange. */
  lemma SaveAfterTurn(s: State, input: string, stream: Stream)
    requires stream.outcome.Completed?
    ensures SaveText(Send(s, input, stream).after.messages)
         == SaveText(s.messages)
            + (SaveBlock(Turn(User, input)) + SaveBlock(Turn(Assistant, Concat(stream.fragments))))
  {
    var text := Concat(stream.fragments);
    var exchange := [Turn(User, input), Turn(Assistant, text)];
    SaveTextAppend(s.messages, exchange);
    SaveTextOfExchange(input, text);
  }

  // ---------------------------------------------------------------------------------
  // Whole sessions
  // ---------------------------------------------------------------------------------

  /** One input the session reacts to: a slash-command line or a user message. */
  datatype Event = CommandLine(line: string) | UserMessage(input: string, stream: Stream)

  function Apply(s: State, e: Event,
                 parseFloat: string -> Option<real>,
                 parseInt: string -> Option<int>): State {
    match e
    case CommandLine(line) => Dispatch(s, line, parseFloat, parseInt).after
    case UserMessage(input, stream) => Send(s, input, stream).after
  }

  /** A run of events; once the process has exited, nothing more happens. */
  function Run(s: State, events: seq<Event>,
               parseFloat: string -> Option<real>,
               parseInt: string -> Option<int>): State
    decreases |events|
  {
    if events == [] || s.exitCode.Some? then s
    else Run(Apply(s, events[0], parseFloat, parseInt), events[1..], parseFloat, parseInt)
  }

  /** One event keeps the invariants and never lowers a token counter. */
  lemma ApplyInvariants(s: State, e: Event,
                        parseFloat: string -> Option<real>,
                        parseInt: string -> Option<int>)
    ensures var t := Apply(s, e, parseFloat, parseInt);
      && (s.params.InRange() ==> t.params.InRange())
      && (s.PresetConsistent() ==> t.PresetConsistent())
      && t.inputTokens >= s.inputTokens && t.outputTokens >= s.outputTokens
  {
    if e.CommandLine? {
      DispatchInvariants(s, e.line, parseFloat, parseInt);
    }
  }

  /**
   * Over any run of commands and turns: parameters that start in range stay in range,
   * the active-preset marker stays truthful, and the token counters never decrease.
   */
  lemma {:induction false} RunInvariants(s: State, events: seq<Event>,
                                         parseFloat: string -> Option<real>,
                                         parseInt: string -> Option<int>)
    ensures var t := Run(s, events, parseFloat, parseInt);
      && (s.params.InRange() ==> t.params.InRange())
      && (s.PresetConsistent() ==> t.PresetConsistent())
      && t.inputTokens >= s.inputTokens && t.outputTokens >= s.outputTokens
    decreases |events|
  {
    if events != [] && s.exitCode.None? {
      ApplyInvariants(s, events[0], parseFloat, parseInt);
      RunInvariants(Apply(s, events[0], parseFloat, parseInt), events[1..], parseFloat, parseInt);
    }
  }
}
