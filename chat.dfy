/**
 * `ChatSession` of chat.py as a class whose methods update its fields in place. Console
 * output is returned as a `Report`, the streamed call is given as a `Stream`, and
 * `float()`/`int()` are the caller's `parseFloat`/`parseInt`. Every method is proved to
 * have exactly the effect module Session gives it.
 */
module Chat {
  import opened Wrappers
  import opened PyStr
  import opened Transcript
  import opened Generation
  import opened Session

  /**
   * The `for text in stream.text_stream` loop: `full_text += text`, and after every
   * fragment the text so far is handed to the live view.
   */
  method AccumulateStream(fragments: seq<string>) returns (fullText: string, renders: seq<string>)
    ensures fullText == Concat(fragments)
    ensures renders == Snapshots(fragments)
  {
    fullText := "";
    renders := [];
    var i := 0;
    while i < |fragments|
      invariant 0 <= i <= |fragments|
      invariant fullText == Concat(fragments[..i])
      invariant |renders| == i
      invariant forall k :: 0 <= k < i ==> renders[k] == Concat(fragments[..k + 1])
    {
      assert fragments[..i + 1][..i] == fragments[..i];
      fullText := fullText + fragments[i];
      renders := renders + [fullText];
      i := i + 1;
    }
    assert fragments[..i] == fragments;
  }

  class ChatSession {
    const chatModel: string
    var temperature: real
    var maxTokens: int
    var topP: real
    var topK: int
    var stopSequences: seq<string>
    var messages: seq<Turn>
    var systemPrompt: string
    var inputTokens: nat
    var outputTokens: nat
    var activePreset: Option<string>
    /** `None` while the process runs; the status passed to `sys.exit` once it was called. */
    var exitCode: Option<int>

    function Config(): Params
      reads this
    {
      Params(temperature, maxTokens, topP, topK, stopSequences)
    }

    /** The whole session as a value. */
    function Snapshot(): State
      reads this
    {
      State(chatModel, Config(), systemPrompt, messages, inputTokens, outputTokens,
            activePreset, exitCode)
    }

    /**
     * `ChatSession(...)` with the source's defaults; `systemPrompt` is what was read from
     * the prompt file. The initial values are not range-checked, as in the source.
     */
    constructor (systemPrompt: string,
                 chatModel: string := "claude-sonnet-4-20250514",
                 temperature: real := 0.7,
                 maxTokens: int := 1024,
                 topP: real := 1.0,
                 topK: int := 0,
                 stopSequences: Option<seq<string>> := None)
      ensures Snapshot() == Start(chatModel,
        Params(temperature, maxTokens, topP, topK,
               if stopSequences.Some? then stopSequences.value else []),
        systemPrompt)
    {
      this.chatModel := chatModel;
      this.temperature := temperature;
      this.maxTokens := maxTokens;
      this.topP := topP;
      this.topK := topK;
      this.stopSequences := if stopSequences.Some? then stopSequences.value else [];
      this.messages := [];
      this.systemPrompt := systemPrompt;
      this.inputTokens := 0;
      this.outputTokens := 0;
      this.activePreset := None;
      this.exitCode := None;
    }

    /**
     * `send_message(user_input)`: append the user turn, send the request, accumulate the
     * stream, then append the assistant turn and add the usage, or roll back.
     */
    method SendMessage(userInput: string, stream: Stream) returns (request: Request, renders: seq<string>)
      modifies this
      ensures Exchange(Snapshot(), request, renders) == Send(old(Snapshot()), userInput, stream)
      ensures old(Config().InRange()) ==> Config().InRange()
      ensures old(Snapshot().PresetConsistent()) ==> Snapshot().PresetConsistent()
    {
      messages := messages + [Turn(User, userInput)];
      request := RequestFor(Config(), chatModel, systemPrompt, messages);
      var fullText;
      fullText, renders := AccumulateStream(stream.fragments);
      match stream.outcome
      case Completed(usage) =>
        messages := messages + [Turn(Assistant, fullText)];
        inputTokens := inputTokens + usage.inputTokens;
        outputTokens := outputTokens + usage.outputTokens;
      case Failed(AuthenticationError) =>
        exitCode := Some(1);
      case Failed(_) =>
        messages := messages[..|messages| - 1];
    }

    /** `handle_command(user_input)`. */
    method HandleCommand(userInput: string,
                         parseFloat: string -> Option<real>,
                         parseInt: string -> Option<int>) returns (report: Report)
      modifies this
      ensures Step(Snapshot(), report) == Dispatch(old(Snapshot()), userInput, parseFloat, parseInt)
      ensures old(Config().InRange()) ==> Config().InRange()
      ensures old(Snapshot().PresetConsistent()) ==> Snapshot().PresetConsistent()
    {
      ghost var before := Snapshot();
      DispatchInvariants(before, userInput, parseFloat, parseInt);
      var parts := SplitOnce(userInput);
      if |parts| == 0 {
        report := MissingCommand;
        return;
      }
      var commandName := Lower(parts[0]);
      var args := if |parts| > 1 then parts[1] else "";
      var command := LookupCommand(commandName);
      if command.None? {
        report := UnknownCommand(commandName);
        return;
      }
      match command.value
      case SystemCmd => report := HandleSystemCommand(args);
      case ClearCmd => report := HandleClearCommand();
      case QuitCmd => report := HandleQuitCommand();
      case HistoryCmd => report := HandleHistoryCommand();
      case InfoCmd => report := HandleInfoCommand();
      case SaveCmd => report := HandleSaveCommand(args);
      case HelpCmd => report := HandleHelpCommand();
      case ParamsCmd => report := HandleParamsCommand(args, parseFloat, parseInt);
      case PresetCmd => report := HandlePresetCommand(args);
    }

    /** `_handle_system_command(args)`. */
    method HandleSystemCommand(args: string) returns (report: Report)
      modifies this
      ensures Step(Snapshot(), report) == SystemCommand(old(Snapshot()), args)
    {
      if args == "" {
        report := CurrentSystemPrompt(systemPrompt);
      } else {
        systemPrompt := args;
        messages := [];
        report := SystemPromptReplaced(systemPrompt);
      }
    }

    /** `_handle_clear_command(_)`. */
    method HandleClearCommand() returns (report: Report)
      modifies this
      ensures Step(Snapshot(), report) == ClearCommand(old(Snapshot()))
    {
      messages := [];
      report := HistoryCleared;
    }

    /** `_handle_quit_command(_)`: `sys.exit(0)` becomes the recorded exit status. */
    method HandleQuitCommand() returns (report: Report)
      modifies this
      ensures Step(Snapshot(), report) == QuitCommand(old(Snapshot()))
    {
      report := Exiting;
      exitCode := Some(0);
    }

    /** `_handle_history_command(_)`. */
    method HandleHistoryCommand() returns (report: Report)
      ensures report == HistoryReport(Snapshot())
    {
      if messages == [] {
        report := NoHistory;
        return;
      }
      report := History(HistoryEntries(messages));
    }

    /** `_handle_info_command(_)`. */
    method HandleInfoCommand() returns (report: Report)
      ensures report == InfoReport(Snapshot())
    {
      var presetDisplay := PresetDisplay(activePreset);
      var stopDisplay := if stopSequences != [] then Join(", ", stopSequences) else "none";
      report := Info(chatModel, temperature, maxTokens, topP, topK, stopDisplay, presetDisplay,
                     |messages|, inputTokens, outputTokens);
    }

    /** `_handle_save_command(args)`: the text to write to the file named by `args`. */
    method HandleSaveCommand(args: string) returns (report: Report)
      ensures report == SaveReport(Snapshot(), args)
    {
      if args == "" {
        report := SaveUsage;
        return;
      }
      report := SaveTo(args, SaveText(messages));
    }

    /** `_handle_help_command(_)`. */
    method HandleHelpCommand() returns (report: Report)
      ensures report == HelpText
    {
      report := HelpText;
    }

    /** `_handle_params_command(args)`. */
    method HandleParamsCommand(args: string,
                               parseFloat: string -> Option<real>,
                               parseInt: string -> Option<int>) returns (report: Report)
      modifies this
      ensures Step(Snapshot(), report) == ParamsCommand(old(Snapshot()), args, parseFloat, parseInt)
    {
      ghost var before := Snapshot();
      if args == "" {
        report := CurrentParams(Config());
        return;
      }
      var parts := SplitOnce(args);
      if |parts| < 2 {
        report := ParamsUsage;
        return;
      }
      var name, value := Lower(parts[0]), parts[1];
      match CheckParam(name, value, parseFloat, parseInt)
      case Failure(e) =>
        report := ParamRejected(e);
        return;
      case Success(setting) =>
        match setting {
          case Temperature(v) => temperature := v;
          case MaxTokens(n) => maxTokens := n;
          case TopP(v) => topP := v;
          case TopK(n) => topK := n;
        }
        activePreset := None;
        report := ParamSet(setting, value);
        assert Snapshot() == before.(params := before.params.With(setting), activePreset := None);
    }

    /** `_handle_preset_command(args)`. */
    method HandlePresetCommand(args: string) returns (report: Report)
      modifies this
      ensures Step(Snapshot(), report) == PresetCommand(old(Snapshot()), args)
    {
      ghost var before := Snapshot();
      if args == "" {
        report := PresetList(Presets);
        return;
      }
      var name := Lower(Strip(args));
      var preset := LookupPreset(name);
      if preset.None? {
        report := UnknownPreset(name, Join(", ", Keys(Presets)));
        return;
      }
      temperature, topP, topK := preset.value.temperature, preset.value.topP, preset.value.topK;
      activePreset := Some(name);
      report := PresetApplied(name);
      assert Snapshot() == before.(params := before.params.WithPreset(preset.value),
                                   activePreset := Some(name));
    }
  }
}
