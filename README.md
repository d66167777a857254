# A verified model of `ChatSession` (basic-llm-chat-cli)

`ChatSession` in chat.py is the terminal chat client's state machine. It holds:

- the transcript of user and assistant turns;
- the generation parameters (temperature, max_tokens, top_p, top_k, stop sequences);
- the system prompt;
- the input and output token counters;
- the active-preset marker.

Slash commands (`/system`, `/clear`, `/quit`, `/history`, `/info`, `/save`, `/help`,
`/params`, `/preset`) read and change this state. `send_message` runs one streamed turn
against the model API.

The project is organised by module:

- `Wrappers` (wrappers.dfy): `Option` and `Result`.
- `PyStr` (pystr.dfy): the Python string builtins that chat.py uses.
  - `split(maxsplit=1)`, `strip()`, `lower()`, `capitalize()`, `", ".join(...)`.
  - The `+=` accumulation of streamed text.
  - `split`, `strip`, `lower`, `join` and the accumulation come with lemmas that characterise them.
  - `capitalize()` is stated character by character. Its only use, on the two role strings, is evaluated by `Transcript.LabelIsCapitalizedRole`.
- `Transcript` (transcript.dfy): turns, roles, and the text that `/save` writes and `/history` prints.
- `Generation` (generation.dfy):
  - the parameters and the `PRESETS` table;
  - the per-parameter validation made by `/params`.
- `Session` (session.dfy): the whole session state as a value.
  - Every command and every streamed turn is a function of that value.
  - Invariants are proved for single commands and for whole runs of commands and turns.
- `Chat` (chat.dfy): the class `ChatSession`.
  - Its fields are the Python instance attributes, and its methods update them in place.
  - Each method is proved to produce exactly the state and output that module `Session` specifies.
  - `AccumulateStream` is the `for text in stream.text_stream` loop, with its invariants.

External effects are abstracted as follows:

- **Console output** is returned as a `Report` value that says what would be printed.
- **The streamed call** is a `Stream`:
  - the text fragments the stream yields;
  - then either the final usage or one of the four exception kinds that are caught (rate limit, connection, authentication, status).
- **`float()` and `int()`** are the caller-supplied `parseFloat` and `parseInt`, which return `None` where Python raises `ValueError`.
- **`sys.exit(n)`** is recorded in the `exitCode` field. A run of events stops at the first exit.
- **The system prompt** that the constructor reads from a file is a constructor parameter.

## Model

| member | source | states |
|---|---|---|
| PyStr.SplitOnce | chat.py:97 | `split(maxsplit=1)` yields at most two parts, and a second part is never empty |
| PyStr.SplitOnceSpec | chat.py:97-99 | no part iff the line is all whitespace; the first part is a non-empty word without whitespace; the line is leading whitespace, that word, and then either only whitespace, or at least one whitespace character followed by a rest that starts with a non-whitespace character (the rest keeps its trailing whitespace) |
| PyStr.TrimStartSpec | chat.py:264 | leading-whitespace removal drops only a whitespace prefix and leaves a non-whitespace first character; the result is empty iff the input is all whitespace |
| PyStr.TrimEndSpec | chat.py:264 | trailing-whitespace removal drops only a whitespace suffix and leaves a non-whitespace last character |
| PyStr.WordSpec | chat.py:97 | the first word holds no whitespace, is a prefix of the text, and is followed by whitespace or the end of the text |
| PyStr.Strip | chat.py:264 | `strip()` never lengthens its argument |
| PyStr.StripSpec | chat.py:264 | `strip()` removes whitespace at both ends and nothing else; the result starts and ends with non-whitespace |
| PyStr.StripWord | chat.py:264 | a name without whitespace is unchanged by `strip()` |
| PyStr.Lower | chat.py:98 | `lower()` keeps the length |
| PyStr.LowerSpec | chat.py:98 | `lower()` maps every character by itself, in place |
| PyStr.LowerOfLowerCase | chat.py:264-265 | `lower()` leaves already lower-case text unchanged |
| PyStr.Capitalize | chat.py:145 | `capitalize()` keeps the length, upper-cases the first character and lower-cases the rest |
| PyStr.Concat | chat.py:69-71 | definition: `full_text` after `+=` of every fragment in order, a left fold; ConcatAppend and ConcatPrefix state its properties |
| PyStr.Join | chat.py:151 | definition of `sep.join(xs)`; JoinAppend states how it grows |
| PyStr.JoinAppend | chat.py:151 | a single item joins to itself, and joining one more item appends the separator and that item |
| PyStr.ConcatAppend | chat.py:69-71 | text accumulated over two runs of fragments is the first text followed by the second |
| PyStr.ConcatPrefix | chat.py:69-72 | the text accumulated after any number of fragments is a prefix of the final text |
| Transcript.Label | chat.py:176 | definition: the headings "User" and "Assistant"; LabelIsCapitalizedRole proves them equal to `capitalize()` of the wire role |
| Transcript.SaveBlock | chat.py:176-178 | one saved block reads back as the heading, ":\n", the content unchanged and a blank line, with its exact length |
| Transcript.SaveText | chat.py:175-178 | the saved text is empty exactly when the transcript is |
| Transcript.HistoryEntry | chat.py:145-147 | a printed history entry is a line break followed by the turn's save block without its trailing blank line |
| Transcript.LabelIsCapitalizedRole | chat.py:176 | the heading of a turn is its wire role ("user", "assistant") capitalised, i.e. "User" or "Assistant" |
| Transcript.SaveTextAppend | chat.py:175-178 | the saved text of a transcript that grew at its end is the old saved text followed by the new turns' blocks |
| Transcript.SaveTextContainsBlock | chat.py:175-178 | turn k's block `Role:\n content \n\n` appears in the saved text right after the blocks of turns 0..k-1 and before those of the later turns |
| Transcript.SaveTextOfExchange | chat.py:175-178 | a user/assistant exchange saves as the user block followed by the assistant block |
| Transcript.SaveTextExample | chat.py:175-178 | a "hi"/"hello" exchange saves as `User:\nhi\n\nAssistant:\nhello\n\n` |
| Transcript.HistoryEntries | chat.py:144-147 | `/history` prints one entry per turn, in order, each with its capitalised role and its content |
| Generation.Keys | chat.py:267 | the table's names, one per entry, in order |
| Generation.Find | chat.py:265-272 | a dictionary lookup succeeds iff the name is a key, and then returns an entry stored under that name |
| Generation.LookupPreset | chat.py:17-21 | exactly "precise", "balanced" and "creative" are presets, and every preset's values lie in the ranges that `/params` enforces |
| Generation.PresetValues | chat.py:17-21 | "precise" is (temperature 0.0, top_p 0.5, top_k 10), "balanced" is (0.7, 1.0, 0) and "creative" is (1.0, 1.0, 0) |
| Generation.Params.With | chat.py:224-242 | definition: the parameters with the one field a successful `/params` assigns; WithChangesOnlyNamedField states its effect |
| Generation.Params.WithPreset | chat.py:273-275 | definition: the parameters with a preset's temperature, top_p and top_k; WithPresetInRange states its effect |
| Generation.WithPresetInRange | chat.py:273-275 | applying a preset keeps parameters in range, and keeps max_tokens and the stop sequences |
| Generation.CheckParam | chat.py:218-251 | covers every outcome of the validation: unknown name; `float()` for temperature and top_p and `int()` for max_tokens and top_k; an unparsable value is an invalid-value error; a parsed value is accepted iff it lies in [0.0, 1.0], is at least 1, or is at least 0, by parameter; an out-of-range error names that parameter's constraint |
| Generation.WithChangesOnlyNamedField | chat.py:224-242 | a set changes exactly the named field to its value, and an admissible value keeps parameters in range |
| Session.Start | chat.py:35-47 | a new session has an empty transcript, zero counters, no active preset and the given configuration |
| Session.LookupCommand | chat.py:101-113 | the command table contains exactly the nine command names |
| Session.ParseLine | chat.py:97-115 | the first word, lower-cased, selects the command; the argument is the rest of the line after `split(maxsplit=1)`, or `""` |
| Session.BlankLineHasNoToken | chat.py:97-98 | a line has no command word (where `parts[0]` would raise) exactly when it is blank |
| Session.SystemCommand | chat.py:120-128 | with an argument, the prompt becomes exactly that argument and the transcript is emptied, and nothing else changes; without one, nothing changes |
| Session.ClearCommand | chat.py:130-132 | `/clear` empties the transcript, changes nothing else, and reports that the history was cleared |
| Session.QuitCommand | chat.py:134-136 | `/quit` records exit status 0 and changes nothing else |
| Session.HistoryReport | chat.py:138-147 | "no history" is printed iff the transcript is empty; otherwise the report holds exactly the entries of `HistoryEntries`, one per turn in order |
| Session.StopDisplay | chat.py:151 | definition: the stop sequences joined with ", ", or "none" when there are none |
| Session.PresetDisplay | chat.py:150 | the active preset is shown by name, and as "none" when absent or empty |
| Session.InfoReport | chat.py:149-164 | `/info` reports the model, temperature, max_tokens, top_p, top_k, the stop sequences joined with ", " or "none", the preset display, the number of turns and both counters |
| Session.SaveReport | chat.py:166-178 | with no file name the result is a usage error; otherwise the text to write to that file is the transcript's saved text |
| Session.ParamsCommand | chat.py:200-254 | every outcome except a successful set leaves the whole session unchanged (no argument, a missing value, an unknown name, an unparsable or out-of-range value); a set happens iff validation succeeds, and then the named field gets the parsed value and the preset marker is cleared; a failed validation is reported with exactly the error `CheckParam` gives |
| Session.PresetCommand | chat.py:256-277 | every outcome except a successful apply leaves the session unchanged; the name is stripped and lower-cased; a known preset sets temperature, top_p and top_k from the table and marks that name active; an unknown name is always answered with that name and the joined table keys |
| Session.PresetNamesJoined | chat.py:267 | the listed preset names read "precise, balanced, creative" |
| Session.UnknownPresetListsNames | chat.py:264-270 | an unknown preset is answered with "precise, balanced, creative" |
| Session.Execute | chat.py:117-118 | `/history`, `/info`, `/save` and `/help` leave the session unchanged |
| Session.Dispatch | chat.py:96-118 | a line without a known command changes nothing, and an unknown one is reported under its lower-cased name |
| Session.ParamsKeepsInvariants | chat.py:200-254 | `/params` never touches the transcript, counters, model or stop sequences; keeps parameters in range; keeps the preset marker truthful |
| Session.PresetKeepsInvariants | chat.py:256-277 | `/preset` never touches the transcript, counters, model or stop sequences; keeps parameters in range; keeps the preset marker truthful |
| Session.ExecuteKeepsInvariants | chat.py:118-277 | every command keeps these invariants; only `/clear` and `/system` change the transcript; only `/system` changes the prompt, and only to its argument |
| Session.DispatchInvariants | chat.py:96-277 | every command line keeps the invariants; the transcript changes only through `/clear` or `/system`; the prompt changes only through `/system`, to its argument |
| Session.PresetPreciseExample | chat.py:264-276 | `/preset precise` sets temperature 0.0, top_p 0.5 and top_k 10, marks "precise" active and keeps the transcript |
| Session.ManualSetClearsPreset | chat.py:253 | after a successful `/params` set the active preset is cleared and shows as "none" |
| Session.RequestFor | chat.py:57-65 | top_k is sent only when positive, and stop sequences only when non-empty; model, max_tokens, temperature, top_p, system prompt and transcript are sent as they are |
| Session.Snapshots | chat.py:69-72 | definition: the values handed to `live.update`, the text accumulated after each fragment; SnapshotsGrow states their properties |
| Session.SnapshotsGrow | chat.py:69-72 | each value shown by the live view extends the one before, and the last is the full response |
| Session.Send | chat.py:53-94 | the request carries the transcript with the new user turn. On success the transcript grows by exactly the user turn and an assistant turn holding all fragments in order, and both counters grow by the usage. On a rate-limit, connection or status error the session is exactly as before. On an authentication error the user turn stays and exit status 1 is recorded. Parameters, prompt and preset never change |
| Session.SaveAfterTurn | chat.py:74-79 | after a successful turn, the saved text is the old saved text followed by the user block and the assistant block |
| Session.ApplyInvariants | chat.py:53-277 | one command or turn keeps the parameter ranges and the preset marker, and never lowers a counter |
| Session.RunInvariants | chat.py:53-277 | over any run of commands and turns: parameters stay in range, the preset marker stays truthful and the counters never decrease |
| Chat.AccumulateStream | chat.py:69-72 | the loop accumulates the concatenation of all fragments, and hands the live view the text so far after each fragment |
| Chat.ChatSession.constructor | chat.py:25-47 | fields start with the source's defaults; missing stop sequences become `[]` |
| Chat.ChatSession.SendMessage | chat.py:53-94 | updates the fields in place exactly as `Send` specifies, and keeps parameter ranges and the preset marker |
| Chat.ChatSession.HandleCommand | chat.py:96-118 | updates the fields exactly as `Dispatch` specifies, and keeps parameter ranges and the preset marker |
| Chat.ChatSession.HandleSystemCommand | chat.py:120-128 | performs `SystemCommand` in place |
| Chat.ChatSession.HandleClearCommand | chat.py:130-132 | performs `ClearCommand` in place |
| Chat.ChatSession.HandleQuitCommand | chat.py:134-136 | performs `QuitCommand` in place |
| Chat.ChatSession.HandleHistoryCommand | chat.py:138-147 | reports `HistoryReport` of the current state, changing nothing |
| Chat.ChatSession.HandleInfoCommand | chat.py:149-164 | reports `InfoReport` of the current state, changing nothing |
| Chat.ChatSession.HandleSaveCommand | chat.py:166-181 | reports `SaveReport` of the current state, changing nothing |
| Chat.ChatSession.HandleHelpCommand | chat.py:183-198 | prints the help text and changes nothing |
| Chat.ChatSession.HandleParamsCommand | chat.py:200-254 | performs `ParamsCommand` in place |
| Chat.ChatSession.HandlePresetCommand | chat.py:256-277 | performs `PresetCommand` in place |

## Left out

- The Anthropic client and `messages.stream` are foreign calls. A call is given as a `Stream` value.
- Exceptions other than the four caught kinds propagate out of `send_message`, so they are not modelled.
- `Session.Send`: an exception from `get_final_message()` after the assistant turn was appended is not modelled. Errors are assumed to arise before that append.
- `rich` output: `Console`, `Live`, `Markdown`, the refresh rate, styles and markup are terminal UI. Output is a `Report` value, not text.
- The text of help, info and usage messages is static display. It is modelled as report constructors.
- Float-to-text formatting in `/info`, `/params` and the preset listing is left out. Reports carry the values themselves.
- `float()` and `int()` parsing is modelled as caller-supplied functions.
  - `float()` also accepts "nan" and "inf", which the range check rejects.
  - A `real` cannot represent these values, so that path is only covered by `parseFloat` returning an out-of-range value.
- Opening and writing the file in `/save` is I/O. Its success and failure messages are not modelled; `SaveTo` carries the path and the exact text to write.
- `sys.exit` does not end the process in the model. It is recorded as `exitCode`, after which `Session.Run` processes nothing more.
- `PyStr.Lower`: does not model Unicode case mapping beyond ASCII and the KELVIN SIGN (U+212A → 'k'). Other non-ASCII letters and multi-character lowerings are kept unchanged.
- `PyStr.Capitalize`: upper-cases ASCII letters only. chat.py applies it only to the two role strings.
- The constructor's start banner is not modelled. Neither is the system prompt file read: config.py is not part of this model, and the prompt is a parameter.
- `Session.ParseLine`: a blank line makes the source's `parts[0]` raise `IndexError`. The model reports `MissingCommand` and changes nothing. The interactive shell that ignores blank lines is not part of this model.
- `Transcript.HistoryEntries`: the model prints each turn's content as plain text. The source embeds it in a `rich` markup string (chat.py:147), so bracketed tags inside a turn are read as styles, and an unmatched closing tag makes `/history` fail. That markup interpretation is not modelled.
- main.py is an older stand-alone REPL and is not part of this model.
