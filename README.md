# agent-commander core, modelled in Dafny

agent-commander is a Rust library and pair of command-line programs that start, watch and stop AI coding agents (Claude, Codex, OpenCode, Agent, Gemini, Qwen). It does so by building shell commands, optionally inside a `screen` session or a Docker container, and by reading the agents' newline-delimited JSON (NDJSON) output. This project models the library's logic and proves properties of it:

- `ndjson.dfy`: the NDJSON line codec (`parse_ndjson_line`, `stringify_ndjson_line`, `parse_ndjson`, `stringify_ndjson`).
- `output_stream.dfy`: `JsonOutputStream`. It is a class whose `Process`, `Flush` and `Reset` methods update the buffer, the messages, the errors and the line counter in place. It is proved against a character-wise reference fold, which gives chunk invariance and agreement with batch parsing.
- `input_stream.dfy`: `JsonInputStream`. It is a class holding the message queue, rendered to NDJSON and to UTF-8 bytes (`utf8.dfy`).
- `tools.dfy`, `adapters.dfy`, `claude.dfy`, `codex.dfy`, `opencode.dfy`, `agent_tool.dfy`, `gemini.dfy` and `qwen.dfy`: the tool registry and the six adapters. They cover:
  - model-alias maps;
  - argument vectors built push by push (`argv.dfy` reads them back as flags);
  - shell commands;
  - session-id, usage and error extraction, as loops over the parsed messages.
- `command_builder.dfy`: the generic tool command, the `bash -c "cd … && …"` wrapper, the screen and docker wrappers, the stop commands and the piped command.
- `cli_parser.dfy`: the index-driven argument scanner, the start and stop option records and their validation.
- `controller.dfy`: the `Agent` controller of `lib.rs` (`new`, `start`, `stop`, `get_session_id`, `get_messages`). Process I/O is replaced by parameters.

Shared parts:
- `json.dfy` holds the JSON value type (null, bool, number, string, array, object as key–value pairs, after section 3 of RFC 8259). It also holds its `Get`, `AsStr` and `AsU64` helpers.
- The JSON parser and serialiser are an opaque `Codec` value passed as a parameter. Every proof holds for every codec. Round trips are stated under explicit assumptions about the codec on the values involved.
- `shell.dfy` and `shell_line.dfy` define a small lexer for the POSIX shell quoting rules (sections 2.2.2 and 2.2.3 of the POSIX Shell Command Language). It covers single and double quotes, backslash escapes, `|` and `&&`.
- Every command-building member is given a meaning by that lexer: a lemma states the words the shell reads from the command. Where the source builds a command that the shell does not read as intended, the model keeps the command as written and adds a corrected definition beside it (see "## Findings").
- `strings.dfy` holds `trim`, `split` and `replace` (ASCII whitespace). `wrappers.dfy` holds `Option` and `Result`.

Where the source and its test files disagree, the model follows the source:
- rust/tests/tools_tests.rs asserts that `gemini` is a registered tool.
- rust/src/tools/mod.rs registers only claude, codex, opencode and agent.
- So gemini and qwen are modelled as written but kept out of the registry.

## Model

| member | source | states |
|---|---|---|
| Ndjson.ParseLine | rust/src/streaming/ndjson.rs:13-27 | a value is returned only for a trimmed line that begins with `{` or `[`, and it is what the parser makes of the trimmed text; a blank line gives none |
| Ndjson.ParseLineAccepts | rust/src/streaming/ndjson.rs:13-27 | a line yields a value exactly when its trimmed text begins like JSON and the parser accepts that text (both directions) |
| Ndjson.ParseLineTrimInvariant | rust/src/streaming/ndjson.rs:14 | the result depends only on the trimmed line |
| Ndjson.ParseLineSurrounded | rust/src/streaming/ndjson.rs:14-26 | whitespace around a line, such as a `\r` before its line feed, does not change its value |
| Ndjson.ParseLineRejectsExamples | rust/src/streaming/ndjson.rs:96-106 | the empty, blank, `hello world` and `123` lines give no value, whatever the parser would say |
| Ndjson.StringifyLine | rust/src/streaming/ndjson.rs:37-49 | the output is empty exactly for `null`; otherwise it is the serialised value and one line feed |
| Ndjson.StringifyAllAppend | rust/src/streaming/ndjson.rs:72-77 | rendering two runs of values is rendering each and concatenating |
| Ndjson.StringifyAllSkipsNull | rust/src/streaming/ndjson.rs:38-40 | a `null` among the values contributes nothing to `stringify_ndjson` |
| Ndjson.ParseLines | rust/src/streaming/ndjson.rs:58-62 | `parse_ndjson` keeps at most one value per line |
| Ndjson.ParseLinesAppend | rust/src/streaming/ndjson.rs:58-62 | parsing two runs of lines is parsing each and concatenating |
| Ndjson.CompactLineParses | rust/src/streaming/ndjson.rs:42-48 | a compact line the codec reads back parses to its value again |
| Ndjson.SplitStringifyAll | rust/src/streaming/ndjson.rs:72-77 | the compact rendering of values has one line per value and ends with a line feed |
| Ndjson.ParseAllStringifyAll | rust/src/streaming/ndjson.rs:58-77 | round trip: `parse_ndjson(stringify_ndjson(vs, true)) == vs` for values the codec round-trips (the test at lines 133-147, in general) |
| OutputStream.HandleLine | rust/src/streaming/output_stream.rs:100-125 | one complete line is counted; its value is appended to the messages, or, when it has none but its trimmed text starts with `{`, a parse error with the new line number is recorded |
| OutputStream.ProcessLines | rust/src/streaming/output_stream.rs:100-126 | handling lines counts each of them and leaves the buffer alone |
| OutputStream.FlushState | rust/src/streaming/output_stream.rs:135-168 | a whitespace-only buffer is left unchanged; otherwise the buffer is emptied and handled as one more line |
| OutputStream.FeedWellFormed | rust/src/streaming/output_stream.rs:88-129 | feeding text keeps the stream invariant: no line feed in the buffer, and the errors are unparsable lines that start with `{`, with increasing line numbers between 1 and the count |
| OutputStream.FlushWellFormed | rust/src/streaming/output_stream.rs:135-168 | flushing keeps the stream invariant |
| OutputStream.HandleLineWellFormed | rust/src/streaming/output_stream.rs:100-125 | handling a line keeps the stream invariant |
| OutputStream.FeedAppend | rust/src/streaming/output_stream.rs:88-96 | chunk invariance: feeding `a` then `b` gives the same state as feeding `a + b` (the test at lines 234-246, in general) |
| OutputStream.FeedCountsLines | rust/src/streaming/output_stream.rs:100-101 | the line count grows by exactly the number of line feeds fed in |
| OutputStream.FeedExtends | rust/src/streaming/output_stream.rs:107-120 | messages and errors are only ever appended to |
| OutputStream.AfterPiecesChar | rust/src/streaming/output_stream.rs:92-96 | one more character moves the split-based state exactly as the character-wise reference does |
| OutputStream.AfterSplitChar | rust/src/streaming/output_stream.rs:92-96 | the same step, stated on the split of the text |
| OutputStream.FeedAfterPieces | rust/src/streaming/output_stream.rs:89-96 | reading text character by character reaches the state `process` leaves after splitting |
| OutputStream.FeedSplit | rust/src/streaming/output_stream.rs:89-126 | `process`'s split agrees with the reference: the pieces before the last are handled as lines, the last stays in the buffer |
| OutputStream.ProcessLinesMessages | rust/src/streaming/output_stream.rs:107-109 | the messages after handling lines are the old ones followed by the values `parse_ndjson_line` finds in those lines |
| OutputStream.StreamMatchesBatch | rust/src/streaming/output_stream.rs:88-168 | feeding a text and flushing collects exactly the values `parse_ndjson` finds in it |
| OutputStream.ChunkedStreamMatchesBatch | rust/src/streaming/output_stream.rs:88-168 | the same text in two chunks, then a flush, yields `parse_ndjson` of the whole text |
| OutputStream.FlushLast | rust/src/streaming/output_stream.rs:135-154 | flushing a buffered last line adds its value, if it has one |
| OutputStream.SelectType | rust/src/streaming/output_stream.rs:192-196 | each message whose `type` is the string occurs in the result exactly as often as in the input, and no other message occurs |
| OutputStream.SelectTypeAppend | rust/src/streaming/output_stream.rs:192-196 | filtering two runs of messages is filtering each and concatenating, so the filter keeps the input order |
| OutputStream.SelectTypeOne | rust/src/streaming/output_stream.rs:194 | one message is kept exactly when its `type` is the string |
| OutputStream.FindFirst | rust/src/streaming/output_stream.rs:202-207 | none exactly when no message is accepted; otherwise the earliest accepted message |
| OutputStream.JsonOutputStream.constructor | rust/src/streaming/output_stream.rs:45-55 | a new stream has an empty buffer, no messages, no errors and line count 0 |
| OutputStream.JsonOutputStream.Process | rust/src/streaming/output_stream.rs:88-129 | the new state is the character-wise reference fed the chunk, the invariant is kept, and the returned values are exactly the ones appended |
| OutputStream.JsonOutputStream.HandleCompleteLine | rust/src/streaming/output_stream.rs:100-125 | the loop body: the state moves as `HandleLine` says and the value returned is the line's |
| OutputStream.JsonOutputStream.Flush | rust/src/streaming/output_stream.rs:135-168 | the new state is `FlushState` of the old one and the returned values are exactly the ones appended |
| OutputStream.JsonOutputStream.Reset | rust/src/streaming/output_stream.rs:181-186 | afterwards the state is that of a new stream |
| OutputStream.JsonOutputStream.FilterByType | rust/src/streaming/output_stream.rs:192-196 | each collected message whose `type` is the string, as often as it was collected, and no others (in order, by SelectTypeAppend) |
| OutputStream.JsonOutputStream.Find | rust/src/streaming/output_stream.rs:202-207 | the first collected message the predicate accepts, or none when it accepts none |
| InputStream.PromptMessage | rust/src/streaming/input_stream.rs:54-59 | the prompt message has type `user_prompt` and the given content |
| InputStream.SystemMessage | rust/src/streaming/input_stream.rs:68-73 | the system message has type `system` and the given content |
| InputStream.ConfigMessage | rust/src/streaming/input_stream.rs:82-90 | the configuration message is an object, never `null`, and is just `{"type":"config"}` for a configuration that is not an object |
| InputStream.ConfigMessageKeys | rust/src/streaming/input_stream.rs:83-88 | every key of the configuration keeps its value, so a `type` it sets replaces `config`; other keys are absent |
| InputStream.JsonInputStream.constructor | rust/src/streaming/input_stream.rs:26-31 | a new stream has the chosen rendering and no messages |
| InputStream.JsonInputStream.Default | rust/src/streaming/input_stream.rs:15-19 | the default stream renders compactly and has no messages |
| InputStream.JsonInputStream.FromMessages | rust/src/streaming/input_stream.rs:125-127 | the messages are kept as given, `null`s included |
| InputStream.JsonInputStream.Add | rust/src/streaming/input_stream.rs:40-45 | a `null` message is ignored and anything else is appended |
| InputStream.JsonInputStream.AddPrompt | rust/src/streaming/input_stream.rs:54-59 | exactly the prompt message is appended |
| InputStream.JsonInputStream.AddSystemMessage | rust/src/streaming/input_stream.rs:68-73 | exactly the system message is appended |
| InputStream.JsonInputStream.AddConfig | rust/src/streaming/input_stream.rs:82-90 | exactly the configuration message is appended |
| InputStream.JsonInputStream.Clear | rust/src/streaming/input_stream.rs:110-113 | no messages remain |
| InputStream.JsonInputStream.ToBytes | rust/src/streaming/input_stream.rs:100-102 | decoding the bytes as UTF-8 gives `to_string` back |
| InputStream.ToStringReadsBack | rust/src/streaming/input_stream.rs:93-97 | parsing `to_string` gives the messages back when the stream is compact and the codec round-trips each message |
| InputStream.SystemThenPrompt | rust/src/streaming/input_stream.rs:179-187 | chaining a system message and a prompt gives size 2 and renders those two lines in that order |
| Tools.GetToolSpec | rust/src/tools/mod.rs:117-128 | `get_tool` succeeds exactly for the four supported names, with the descriptor of that name, and otherwise fails with `Unknown tool: <name>. Available tools: claude, codex, opencode, agent` (both directions) |
| Tools.ListToolsSupported | rust/src/tools/mod.rs:131-144 | a name is in `list_tools` exactly when `is_tool_supported` holds, and the list has no repeats |
| Tools.IsToolSupportedExamples | rust/src/tools/mod.rs:159-167 | `claude` and `agent` are supported; the empty name, `unknown`, `gemini` and `qwen` are not |
| Tools.ClaudeAccessors | rust/src/tools/mod.rs:169-175 | the claude descriptor names `claude`, runs `claude`, supports JSON output and defaults to `sonnet` |
| Tools.NewRegistryAgrees | rust/src/tools/mod.rs:85-107 | the registry built by `new` supports a name exactly when `is_tool_supported` does, `get` returns `get_tool`'s descriptor, and `list` holds the names of `list_tools` |
| Adapters.MapModelIdempotent | rust/src/tools/claude.rs:26-32 | mapping a model twice is mapping it once, for a table whose full ids are not aliases |
| Adapters.CombinePrompts | rust/src/tools/gemini.rs:150-155 | the combined prompt is absent only when both are; a lone prompt is kept as it is; both are joined by a blank line, system prompt first |
| Adapters.FirstSome | rust/src/tools/claude.rs:194-204 | none exactly when no message yields a value; otherwise the value of the earliest message that yields one |
| Adapters.FirstSomeAppend | rust/src/tools/claude.rs:197-201 | over output read in two parts, the first part's match wins, else the second's |
| Adapters.SumAppend | rust/src/tools/claude.rs:226-247 | the counters summed over two parts of the output add up |
| Adapters.AddTotalsAssoc | rust/src/tools/gemini.rs:222-261 | adding token counts is associative |
| Adapters.FillTotalSpec | rust/src/tools/gemini.rs:263-266 | filling in keeps the input and output counts, keeps a reported total, replaces a zero total by input plus output, and is idempotent |
| Adapters.FlagCommandUntrimmed | rust/src/tools/claude.rs:169-173 | with arguments present, `trim` removes nothing and the command starts with the tool and its first argument |
| Adapters.FlagCommandWords | rust/src/tools/claude.rs:169-173 | the shell reads `<tool> <args>` as the tool name followed by exactly the arguments |
| Adapters.PipedCommandWords | rust/src/tools/codex.rs:120-123 | the shell reads the piped command as `printf %s <prompt>`, a pipe, then the tool with exactly its arguments, so the prompt reaches the tool's input verbatim |
| Claude.ModelMapFullIdsFixed | rust/src/tools/claude.rs:9-17 | no full id of the table is itself an alias |
| Claude.MapModelToIdExamples | rust/src/tools/claude.rs:9-32 | `sonnet`, `opus` and `haiku` map to their full ids and a full id passes through |
| Claude.MapModelToIdIdempotent | rust/src/tools/claude.rs:26-32 | mapping a model twice is mapping it once |
| Claude.BuildArgs | rust/src/tools/claude.rs:67-141 | the pushes build exactly the reference argument vector |
| Claude.ArgsStartWithSkipPermissions | rust/src/tools/claude.rs:70-71 | `--dangerously-skip-permissions` is always the first argument |
| Claude.SwitchNamesUnvalued | rust/src/tools/claude.rs:100-138 | no switch is also a flag that takes a value |
| Claude.ArgsParse | rust/src/tools/claude.rs:67-141 | read back with the value flags, the argument vector is exactly the flag list: each value follows its own flag |
| Claude.ModelFlag | rust/src/tools/claude.rs:73-77 | `--model` appears with the mapped model when a model is given, and never otherwise |
| Claude.FallbackModelFlag | rust/src/tools/claude.rs:79-83 | `--fallback-model` appears with the mapped fallback model when one is given, and never otherwise |
| Claude.OutputFormatFlag | rust/src/tools/claude.rs:108-112 | `--output-format stream-json` appears exactly when JSON output is asked for |
| Claude.NoBareJson | rust/src/tools/claude.rs:108-118 | no flag is a bare `json` |
| Claude.InputFormatFlag | rust/src/tools/claude.rs:114-118 | `--input-format stream-json` appears exactly when JSON input is asked for |
| Claude.BuildCommandWords | rust/src/tools/claude.rs:169-173 | the shell runs `claude` with exactly the argument vector |
| Claude.BuildCommandPrefix | rust/src/tools/claude.rs:169-173 | the command starts with `claude --dangerously-skip-permissions` |
| Claude.ExtractSessionId | rust/src/tools/claude.rs:194-204 | none exactly when no parsed line has a string `session_id`; otherwise the first line's one |
| Claude.TotalUsageAppend | rust/src/tools/claude.rs:222-250 | the usage of output in two parts is the sum of the parts' usage |
| Claude.TotalUsageOne | rust/src/tools/claude.rs:227-246 | one message contributes exactly its own `message.usage` counters, and 0 for each one missing or not a u64 |
| Claude.ExtractUsage | rust/src/tools/claude.rs:222-250 | the `+=` loop computes the usage summed over all parsed lines |
| Claude.DefaultModelResolves | rust/src/tools/claude.rs:271-290 | the default model `sonnet` is an alias the table resolves to `claude-sonnet-4-5-20250929` |
| Codex.MapModelToIdExamples | rust/src/tools/codex.rs:9-35 | `gpt5` maps to `gpt-5` and `sonnet` to `claude-3-5-sonnet`; `o3` and an unknown name pass through unchanged |
| Codex.MapModelToIdIdempotent | rust/src/tools/codex.rs:30-35 | mapping a model twice is mapping it once |
| Codex.BuildArgs | rust/src/tools/codex.rs:54-78 | the pushes build exactly the reference argument vector |
| Codex.ArgsStart | rust/src/tools/codex.rs:55-60 | the vector starts with `exec`, then `resume <id>` when resuming |
| Codex.ArgsEnd | rust/src/tools/codex.rs:74-75 | the vector always ends with `--skip-git-repo-check --dangerously-bypass-approvals-and-sandbox` |
| Codex.SwitchNamesUnvalued | rust/src/tools/codex.rs:55-75 | `exec`, `--json` and the two autonomy flags take no value |
| Codex.ArgsParse | rust/src/tools/codex.rs:54-78 | read back with the value flags, the vector is exactly the flag list: `resume` and `--model` are each followed by their value |
| Codex.OptionsCarried | rust/src/tools/codex.rs:57-71 | `--model v` appears exactly when a model is given and `v` is its mapped id; `resume v` exactly when resuming session `v`; `--json` exactly when JSON is asked for |
| Codex.BuildCommandWords | rust/src/tools/codex.rs:108-123 | the shell reads `printf %s <combined prompt> \| codex <args>`: the combined prompt reaches codex's input verbatim and codex gets exactly its argument vector |
| Codex.ExtractSessionId | rust/src/tools/codex.rs:145-158 | none exactly when no parsed line has a string `thread_id` or `session_id`; otherwise the first such line's, `thread_id` preferred |
| Codex.TotalUsageAppend | rust/src/tools/codex.rs:174-190 | the input and output counts of output read in two parts are the sums of the parts' counts |
| Codex.ExtractUsage | rust/src/tools/codex.rs:174-190 | the `+=` loop computes the `usage` counters summed over all parsed lines |
| Codex.DefaultModelIsFullId | rust/src/tools/codex.rs:205-218 | the default model `gpt-5` is already a full id, and codex takes no separate system prompt |
| Opencode.MapModelToIdExamples | rust/src/tools/opencode.rs:9-36 | `grok` and `grok-code-fast-1` map to `opencode/grok-code`, `sonnet` to `anthropic/claude-3-5-sonnet`, and a full id passes through |
| Opencode.MapModelToIdIdempotent | rust/src/tools/opencode.rs:30-36 | mapping a model twice is mapping it once |
| Opencode.BuildArgs | rust/src/tools/opencode.rs:55-76 | the pushes build exactly the reference argument vector |
| Opencode.ArgsStart | rust/src/tools/opencode.rs:56 | the vector starts with `run`, and is exactly `run` when no option is set |
| Opencode.RunUnvalued | rust/src/tools/opencode.rs:56 | `run` takes no value |
| Opencode.ArgsParse | rust/src/tools/opencode.rs:55-76 | read back with the value flags, the vector is exactly the flag list: `--model`, `--format` and `--resume` are each followed by their value |
| Opencode.OptionsCarried | rust/src/tools/opencode.rs:58-73 | `--model v` exactly when a model is given and `v` is its mapped id; `--format json` exactly when JSON is asked for; `--resume v` exactly when resuming session `v` |
| Opencode.BuildCommandWords | rust/src/tools/opencode.rs:110-131 | the shell reads `printf %s <combined prompt> \| opencode <args>`: the combined prompt reaches opencode's input verbatim and opencode gets exactly its argument vector |
| Opencode.ExtractSessionId | rust/src/tools/opencode.rs:152-162 | none exactly when no parsed line has a string `session_id`; otherwise the first line's one |
| Opencode.TotalUsageAppend | rust/src/tools/opencode.rs:178-194 | the input and output counts of output read in two parts are the sums of the parts' counts |
| Opencode.ExtractUsage | rust/src/tools/opencode.rs:178-194 | the `+=` loop computes the `usage` counters summed over all parsed lines |
| Opencode.DefaultModelResolves | rust/src/tools/opencode.rs:209-222 | the default model `grok-code-fast-1` resolves to `opencode/grok-code`, and opencode takes no separate system prompt |
| AgentTool.MapModelToIdExamples | rust/src/tools/agent.rs:11-37 | `grok` maps to `opencode/grok-code`, `sonnet` and `haiku` to their anthropic ids, and a full id passes through |
| AgentTool.MapModelToIdIdempotent | rust/src/tools/agent.rs:32-37 | mapping a model twice is mapping it once |
| AgentTool.BuildArgs | rust/src/tools/agent.rs:56-74 | the pushes build exactly the reference argument vector |
| AgentTool.ArgsDefault | rust/src/tools/agent.rs:56-74 | default options give no arguments at all |
| AgentTool.ArgsParse | rust/src/tools/agent.rs:56-74 | read back with the value flags, the vector is exactly the flag list: `--model` is followed by its value |
| AgentTool.OptionsCarried | rust/src/tools/agent.rs:59-71 | `--model v` exactly when a model is given and `v` is its mapped id; `--compact-json` and `--use-existing-claude-oauth` exactly when their options are set |
| AgentTool.BuildCommandWords | rust/src/tools/agent.rs:104-119 | the shell reads `printf %s <combined prompt> \| agent <args>`: the combined prompt reaches agent's input verbatim and agent gets exactly its argument vector |
| AgentTool.ExtractSessionId | rust/src/tools/agent.rs:140-150 | none exactly when no parsed line has a string `session_id`; otherwise the first line's one |
| AgentTool.TotalUsageAppend | rust/src/tools/agent.rs:172-213 | every counter, the step count included, of output read in two parts is the sum of the parts' counters |
| AgentTool.TotalUsageOne | rust/src/tools/agent.rs:176-210 | one event contributes exactly its own counters |
| AgentTool.TotalUsageSnoc | rust/src/tools/agent.rs:176-210 | one more event adds its own counters to those of the events before it |
| AgentTool.OtherEventsIgnored | rust/src/tools/agent.rs:178-179 | an event that is not a `step_finish` with a `part` adds nothing, whatever tokens it carries |
| AgentTool.ExtractUsage | rust/src/tools/agent.rs:172-213 | the loop computes the counters summed over all parsed events |
| AgentTool.AddEvent | rust/src/tools/agent.rs:178-208 | one loop step adds exactly the event's counters |
| AgentTool.AddTokens | rust/src/tools/agent.rs:182-202 | a `tokens` object adds its `input`, `output` and `reasoning` counts and its `cache.read` and `cache.write` counts, each 0 when absent or not a u64, and leaves the step count alone |
| AgentTool.ErrorsReported | rust/src/tools/agent.rs:230-249 | an error is reported exactly when some event has type `error` or `step_error`; the report comes from the first such event, names its type and always has a message; otherwise the report is the default |
| AgentTool.DetectErrors | rust/src/tools/agent.rs:230-249 | the scan that returns at the first error event yields that report |
| AgentTool.DefaultModelResolves | rust/src/tools/agent.rs:264-277 | the default model `grok-code-fast-1` resolves to `opencode/grok-code`, and agent has no resume |
| Gemini.MapModelToIdExamples | rust/src/tools/gemini.rs:9-40 | `flash` maps to `gemini-2.5-flash`, `3-pro` to `gemini-3-pro-preview`, the legacy `gemini-pro` to `gemini-2.5-pro`, and a full id passes through |
| Gemini.MapModelToIdIdempotent | rust/src/tools/gemini.rs:34-40 | mapping a model twice is mapping it once |
| Gemini.New | rust/src/tools/gemini.rs:56-64 | the options of `new` are the defaults with `yolo` switched on, and only that |
| Gemini.BuildArgs | rust/src/tools/gemini.rs:73-119 | the pushes build exactly the reference argument vector |
| Gemini.SwitchNamesUnvalued | rust/src/tools/gemini.rs:83-116 | the prompt flag takes a value; `--yolo`, `--sandbox`, `-d` and `--checkpointing` do not |
| Gemini.ArgsParse | rust/src/tools/gemini.rs:73-119 | read back with the value flags, the vector is exactly the flag list: `-m`, `--output-format` and the prompt flag are each followed by their value |
| Gemini.PromptLast | rust/src/tools/gemini.rs:109-116 | with a prompt, the vector ends with the prompt flag and the prompt |
| Gemini.PromptFlags | rust/src/tools/gemini.rs:109-116 | the prompt travels under `-i` when interactive and `-p` otherwise, and a flag named `-p` or `-i` is always that one |
| Gemini.HeadFlagsNotPrompt | rust/src/tools/gemini.rs:76-106 | none of the flags before the prompt is named `-p` or `-i` |
| Gemini.ModelFlag | rust/src/tools/gemini.rs:76-80 | `-m` carries the mapped model when a model is given, and appears never otherwise |
| Gemini.OutputFormatFlag | rust/src/tools/gemini.rs:103-106 | `--output-format stream-json` appears exactly when JSON output is asked for |
| Gemini.BuildCommandWords | rust/src/tools/gemini.rs:147-166 | the shell reads the command as `gemini` followed by exactly the arguments of the options with the prompts folded together |
| Gemini.BuildCommandPrompt | rust/src/tools/gemini.rs:150-163 | with either prompt given, the command's last two arguments are the prompt flag and the system and user prompts joined by a blank line; no system prompt is left over |
| Gemini.ExtractSessionId | rust/src/tools/gemini.rs:187-201 | none exactly when no parsed line has a string `session_id` or `conversation_id`; otherwise the first such line's, `session_id` preferred |
| Gemini.SummedAppend | rust/src/tools/gemini.rs:222-261 | the counters summed over output read in two parts are the sums of the parts' counters |
| Gemini.SummedSnoc | rust/src/tools/gemini.rs:222-261 | one more message adds its own counters to those of the messages before it |
| Gemini.ExtractUsage | rust/src/tools/gemini.rs:218-269 | the loop sums the counters over all parsed lines, then a zero total is filled in as input plus output |
| Gemini.AddMessage | rust/src/tools/gemini.rs:222-261 | one loop step adds exactly the message's `usage` and `usageMetadata` counters |
| Gemini.AddUsageObject | rust/src/tools/gemini.rs:224-244 | a `usage` object adds both its snake_case and its camelCase counts, each 0 when absent or not a u64 |
| Gemini.AddMetadata | rust/src/tools/gemini.rs:247-260 | a `usageMetadata` object adds its prompt, candidates and total token counts |
| Gemini.ErrorsReported | rust/src/tools/gemini.rs:286-321 | an error is reported exactly when some message has type `error` or an `error` member; the report comes from the first such message, its type defaults to `error` and its message is always present; otherwise the report is the default |
| Gemini.DetectErrors | rust/src/tools/gemini.rs:286-321 | the scan that returns at the first error message yields that report |
| Gemini.DefaultModelIsFullId | rust/src/tools/gemini.rs:340-357 | the default model `gemini-2.5-flash` is already a full id, and prompts do not come on standard input |
| Qwen.MapModelToIdExamples | rust/src/tools/qwen.rs:10-36 | `qwen3-coder` and `coder` map to `qwen3-coder-480a35`; `gpt-4o` and an unknown name pass through unchanged |
| Qwen.MapModelToIdIdempotent | rust/src/tools/qwen.rs:30-36 | mapping a model twice is mapping it once |
| Qwen.New | rust/src/tools/qwen.rs:54-63 | the options of `new` are the defaults with `stream_json` and `yolo` switched on, and only those |
| Qwen.DirFlagsAt | rust/src/tools/qwen.rs:120-123 | one `--include-directories` pair per directory, in list order |
| Qwen.DirFlagsValued | rust/src/tools/qwen.rs:120-123 | every directory flag is an `--include-directories` pair |
| Qwen.BuildArgs | rust/src/tools/qwen.rs:72-126 | the pushes and the directory loop build exactly the reference argument vector |
| Qwen.PushDirectories | rust/src/tools/qwen.rs:120-123 | the loop appends exactly the rendered directory pairs to what was built before |
| Qwen.SwitchNamesUnvalued | rust/src/tools/qwen.rs:98-118 | `--include-partial-messages`, `--yolo`, `--continue` and `--all-files` take no value |
| Qwen.ArgsParse | rust/src/tools/qwen.rs:72-126 | read back with the value flags, the vector is exactly the flag list: `-p`, `--model`, `--output-format`, `--resume` and `--include-directories` are each followed by their value |
| Qwen.HeadFlagsFit | rust/src/tools/qwen.rs:76-118 | among the flags before the directories, exactly the value flags carry a value |
| Qwen.DirectoriesLast | rust/src/tools/qwen.rs:120-125 | the directory pairs close the vector, one pair per directory, in list order |
| Qwen.DirsAfter | rust/src/tools/qwen.rs:120-125 | whatever flags come first, the directory pairs rendered after them sit at the end in order |
| Qwen.DirWords | rust/src/tools/qwen.rs:120-123 | the directories render to two words each: the flag, then the directory |
| Qwen.OutputFormatFlag | rust/src/tools/qwen.rs:89-95 | `--output-format` is `stream-json` when streaming, else `json` when JSON is asked for, and absent otherwise |
| Qwen.PartialMessagesFlag | rust/src/tools/qwen.rs:98-100 | `--include-partial-messages` appears exactly when it is asked for and output is streamed |
| Qwen.SessionFlag | rust/src/tools/qwen.rs:108-113 | `--resume <id>` appears when resuming, and `--continue` exactly when there is no session to resume and continuing is asked for |
| Qwen.NewArgs | rust/src/tools/qwen.rs:54-63 | the options of `new` give exactly `--output-format stream-json --yolo` |
| Qwen.BuildCommandWords | rust/src/tools/qwen.rs:154-173 | the shell reads the command as `qwen` followed by exactly the arguments of the options with the prompts folded together |
| Qwen.BuildCommandPrompt | rust/src/tools/qwen.rs:156-168 | with either prompt given, the arguments open with `-p` and the system and user prompts joined by a blank line; no system prompt is left over |
| Qwen.ExtractSessionId | rust/src/tools/qwen.rs:194-209 | none exactly when no parsed line has a string `session_id` or `sessionId`; otherwise the first such line's, `session_id` preferred |
| Qwen.SummedAppend | rust/src/tools/qwen.rs:230-260 | the counters summed over output read in two parts are the sums of the parts' counters |
| Qwen.SummedSnoc | rust/src/tools/qwen.rs:230-260 | one more message adds its own counters to those of the messages before it |
| Qwen.ReportedTotalKept | rust/src/tools/qwen.rs:262-265 | once any total is reported, the summed total is kept as it is even when it is smaller than input plus output, and the input and output counts are unchanged |
| Qwen.ExtractUsage | rust/src/tools/qwen.rs:226-268 | the loop sums the counters over all parsed lines, then a zero total is filled in as input plus output |
| Qwen.AddMessage | rust/src/tools/qwen.rs:231-259 | one loop step adds exactly the message's `usage` and `result.usage` counters |
| Qwen.AddUsageObject | rust/src/tools/qwen.rs:232-242 | a `usage` object adds its input, output and total counts, each 0 when absent or not a u64 |
| Qwen.ErrorsReported | rust/src/tools/qwen.rs:295-326 | an error is reported exactly when some message has type `error` or a string `error` member; the report, from the first such message, has type `error`, and its message is the `message` (else `error`, else `Unknown error`) of a typed error and the `error` string of an untyped one; otherwise the report is the default |
| Qwen.CheckMessage | rust/src/tools/qwen.rs:299-322 | one scan step gives the message's report exactly when it is an error |
| Qwen.DetectErrors | rust/src/tools/qwen.rs:295-326 | the scan that returns at the first error message yields that report |
| Qwen.DefaultModelIsFullId | rust/src/tools/qwen.rs:346-364 | the default model `qwen3-coder-480a35` is already a full id, and qwen takes no separate system prompt |
| Shell.SingleQuotedRoundTrip | rust/src/tools/codex.rs:96-98 | a text with every `'` replaced by `'\''`, put between single quotes, reads back as exactly that text, one word |
| Shell.EscapeDoubleQuotedCharwise | rust/src/tools/claude.rs:151-155 | the replace chain puts one backslash before each `\`, `"`, `$` and backtick and changes nothing else: the backslashes added by the later replacements are not doubled again |
| Shell.DoubleQuotedRoundTrip | rust/src/tools/claude.rs:151-156 | the escaped text put between double quotes reads back as exactly the original text, one word |
| Shell.EscapeArgRoundTrip | rust/src/tools/claude.rs:144-160 | with the quoting test widened, every argument reads back as exactly itself, one word, wherever it stands on the line |
| Shell.EscapeArgEdges | rust/src/tools/claude.rs:144-160 | an escaped argument is never empty and neither starts nor ends with whitespace, so the `trim` of a command line never cuts into it |
| Shell.EscapeArgAgrees | rust/src/tools/claude.rs:144-160 | the widened test only adds cases: whenever the source's test quotes, or the argument is plain, the result is the source's |
| Shell.EscapeArgAsWrittenApostrophe | rust/src/tools/claude.rs:145-149 | as written, an argument such as `it's` passes the quoting test unquoted and leaves the shell an unterminated quote; the widened test quotes it and it reads back as itself |
| Shell.EscapeArgAsWrittenEmpty | rust/src/tools/claude.rs:157-158 | as written, an empty argument is emitted as nothing and its word vanishes from the line; the widened test keeps it as an empty word |
| Shell.JoinArgsEdges | rust/src/tools/claude.rs:171-172 | the joined arguments start with the first escaped argument's first character and end with the last one's last character, never whitespace |
| Shell.AfterBlankArgs | rust/src/tools/claude.rs:171-172 | the blank-joined escaped arguments read as exactly the arguments, one word each, after whatever came before |
| Shell.CommandLine | rust/src/tools/claude.rs:169-173 | `<program> <joined args>` trimmed reads as the program word followed by one word per argument |
| CommandBuilder.EscapeQuotesSpec | rust/src/command_builder.rs:28-30 | `escape_quotes` leaves text without a single quote as it is, and turns each quote into the four characters `'\''` |
| CommandBuilder.EscapeQuotesChanges | rust/src/command_builder.rs:28-30 | `escape_quotes` changes every text that holds a single quote |
| CommandBuilder.EscapeForBashCSpec | rust/src/command_builder.rs:33-38 | `escape_for_bash_c` puts one backslash before each `\`, `"`, `$` and backtick and leaves every other character alone, so it is the identity on text without them |
| CommandBuilder.EscapeScriptFrame | rust/src/command_builder.rs:177-181 | escaping `cd <x> && <y>` for double quotes escapes `x` and `y` and leaves `cd` and `&&` alone |
| CommandBuilder.BuildToolCommand | rust/src/command_builder.rs:41-53 | the tool name and one push per present prompt flag, each prompt escaped for single quotes inside double quotes: exactly the command as written |
| CommandBuilder.ToolCommandAgrees | rust/src/command_builder.rs:41-53 | for prompts without `'`, `\`, `"`, `$` or a backtick, the command as written equals the corrected one |
| CommandBuilder.ToolCommandWords | rust/src/command_builder.rs:41-53 | the corrected generic command is read as the tool, then `--prompt` and the prompt, then `--system-prompt` and the system prompt, each present one verbatim whatever it contains |
| CommandBuilder.ToolCommandAsWrittenWords | rust/src/command_builder.rs:41-53 | as written, the shell hands the tool each prompt escaped for single quotes instead of the prompt itself (for prompts without `\`, `"`, `$` or a backtick) |
| CommandBuilder.ToolCommandAsWrittenAltersQuotes | rust/src/command_builder.rs:44-46 | for a prompt with an apostrophe, such as `It's`, the builder as written hands the tool the longer text `It'\''s`, while the corrected builder hands it the prompt |
| CommandBuilder.OnePromptAsWritten | rust/src/command_builder.rs:44-46 | as written, a lone prompt reaches the tool escaped for single quotes |
| CommandBuilder.OnePrompt | rust/src/command_builder.rs:44-46 | corrected, a lone prompt reaches the tool as `--prompt` and the prompt itself |
| CommandBuilder.BashCScript | rust/src/command_builder.rs:177-181 | `bash -c` followed by a double-quoted escaped script is read as `bash`, `-c` and exactly the script |
| CommandBuilder.BashCWords | rust/src/command_builder.rs:177-181 | the corrected wrapper hands `bash -c` exactly the script, whatever the directory and the command contain |
| CommandBuilder.BashCAsWrittenWords | rust/src/command_builder.rs:177-181 | the wrapper as written also hands `bash` exactly its script; the discrepancy is inside the script |
| CommandBuilder.BashCAgrees | rust/src/command_builder.rs:177-181 | when the directory needs no quoting, the corrected wrapper is the one written |
| CommandBuilder.ScriptWords | rust/src/command_builder.rs:177-181 | the corrected script changes to exactly the working directory and then, after `&&`, runs the command as it would run alone |
| CommandBuilder.ScriptAsWrittenSplitsDirectory | rust/src/command_builder.rs:178-179 | as written, a directory with a blank, such as `/tmp/my dir`, reaches `cd` as two arguments, while the corrected script gives `cd` the one directory |
| CommandBuilder.ScreenCommandWords | rust/src/command_builder.rs:56-82 | the shell runs `screen -dmS` (detached) or `screen -S` (attached) with the given or generated session name, then `bash -c` with exactly the wrapped command |
| CommandBuilder.BuildDockerCommand | rust/src/command_builder.rs:85-119 | `docker run` and one push per part build exactly the reference docker command |
| CommandBuilder.MountSafe | rust/src/command_builder.rs:110-113 | a mount `dir:dir` holds no quoting character when the directory holds none |
| CommandBuilder.DockerCommandWords | rust/src/command_builder.rs:85-119 | the shell runs `docker run` with `-d` or `-it`, the given or generated name, the working directory mounted at the same path and made current, the `node:18-slim` image, and `bash -c` with exactly the wrapped command |
| CommandBuilder.BaseCommandDispatch | rust/src/command_builder.rs:130-174 | the four supported names select their adapter (agent with compact JSON and OAuth off), and every other name uses the generic builder |
| CommandBuilder.BaseCommandWords | rust/src/command_builder.rs:130-174 | for the corrected tool command: a supported tool, or any plain tool name, reads as the adapter's own argument vector or the generic flags with the prompts verbatim |
| CommandBuilder.BaseCommandAsWrittenWords | rust/src/command_builder.rs:130-174 | the tool command as written reads as the adapter's own argument vector, or the generic flags with each prompt escaped for single quotes |
| CommandBuilder.BuildAgentCommand | rust/src/command_builder.rs:128-204 | dispatching to the adapter or the generic builder as written, wrapping in `bash -c "cd <dir> && …"` as written (directory unquoted) and applying the isolation wrapper gives AgentCommandAsWritten |
| CommandBuilder.AgentCommandUnisolated | rust/src/command_builder.rs:177-201 | without `screen` or `docker`, bash is handed exactly the script as written; for a plain directory the script changes to it and runs the tool's words as written |
| CommandBuilder.AgentCommandScreen | rust/src/command_builder.rs:184-191 | under screen, the session runs `bash -c` with the unisolated command as written |
| CommandBuilder.AgentCommandDocker | rust/src/command_builder.rs:192-199 | under docker, the container runs `bash -c` with the unisolated command as written, in the mounted working directory |
| CommandBuilder.AgentCommandCorrectedWords | rust/src/command_builder.rs:177-181 | the corrected command hands bash a script that changes to exactly the working directory, whatever it contains, and runs the tool with its prompts verbatim |
| CommandBuilder.AgentCommandAgrees | rust/src/command_builder.rs:128-204 | for a plain directory and a supported tool (or generic prompts without `'` or double-quote specials) the command as written equals the corrected one |
| CommandBuilder.ScreenStopCommandWords | rust/src/command_builder.rs:213-215 | the shell sends `-X quit` to exactly the named session |
| CommandBuilder.DockerStopCommandWords | rust/src/command_builder.rs:224-229 | the shell stops the named container and, only if that succeeds, removes it |
| CommandBuilder.PipedCommandWords | rust/src/command_builder.rs:239-242 | the input reaches the command's standard input verbatim through `printf %s`, and the command is read as it would be alone |
| CommandBuilder.PipedCommandShape | rust/src/command_builder.rs:239-242 | without a single quote in the input, the piped command holds the input as it stands |
| CliParser.KeySpec | rust/src/cli_parser.rs:46 | `trim_start_matches("--")` leaves a suffix of the argument that does not start with `--`, and leaves an argument without a leading `--` as it is |
| CliParser.ItemsFlatten | rust/src/cli_parser.rs:42-65 | grouping the arguments into options, flags and positional words loses, adds and reorders nothing |
| CliParser.ItemsHead | rust/src/cli_parser.rs:45-61 | the first item starts at the first argument and is positional exactly when that argument does not start with `--` |
| CliParser.ItemsWellFormed | rust/src/cli_parser.rs:45-61 | the grouping obeys the scanner's rules: an option's value does not start with `--`, and a flag is followed by nothing or by another `--` argument |
| CliParser.ItemsUnique | rust/src/cli_parser.rs:45-61 | the grouping is the only one obeying the rules: any well-formed items are what the scanner reads back from their arguments |
| CliParser.ScanStep | rust/src/cli_parser.rs:42-65 | one turn of the loop moves exactly one item from the unread part of the arguments to the read part |
| CliParser.ParseArgs | rust/src/cli_parser.rs:38-68 | the index-driven loop computes exactly the summary of the grouped items |
| CliParser.OptionsKeys | rust/src/cli_parser.rs:52 | `k` is an option key exactly when some `--k v` was read |
| CliParser.OptionsLast | rust/src/cli_parser.rs:52 | an option's value is that of the last `--k v`: a later one replaces an earlier one |
| CliParser.FlagsMeaning | rust/src/cli_parser.rs:55-58 | `k` is among the flags exactly when some `--k` was read without a value |
| CliParser.HasFlagMeaning | rust/src/cli_parser.rs:21-28 | `has_flag(k)` and `get_bool(k)` hold exactly when `--k` was given, as a flag or with a value |
| CliParser.GetMeaning | rust/src/cli_parser.rs:16-18 | `get(k)` is none exactly when no `--k v` was read, and otherwise the value of the last one |
| CliParser.AllPositional | rust/src/cli_parser.rs:60-62 | without any `--` argument every argument is positional, in input order, and there are no options or flags |
| CliParser.OptionThenFlag | rust/src/cli_parser.rs:322-328 | `--f v --g`: `f` has the value `v`, `g` is a flag, and there is no positional word |
| CliParser.OptionThenPositional | rust/src/cli_parser.rs:331-337 | `--f v p`: `f` has the value `v` and `p` is the one positional word |
| CliParser.ThreeOptions | rust/src/cli_parser.rs:38-68 | `--f x --g y --h z` is read as those three options and nothing else |
| CliParser.StartMeaning | rust/src/cli_parser.rs:111-141 | the isolation is the value of the last `--isolation v`, or `none` without one; the run is detached exactly when `--detached` is given, and attached otherwise; help is asked for by `--help` or `--h` |
| CliParser.StartBasic | rust/src/cli_parser.rs:340-355 | `--tool t --working-directory w --prompt p` gives those three values and the default isolation `none` |
| CliParser.StopMeaning | rust/src/cli_parser.rs:150-160 | the stop isolation is none exactly when no `--isolation v` is given, and otherwise the last such value |
| CliParser.ValidateStartAgentOptions | rust/src/cli_parser.rs:254-281 | each failed rule pushes its message, in rule order, and the options are valid exactly when they are startable |
| CliParser.StartValidIff | rust/src/cli_parser.rs:277-280 | no message is reported exactly when the options are startable |
| CliParser.StartErrorsMeaning | rust/src/cli_parser.rs:257-275 | each message is reported exactly when its rule fails; an unknown isolation excludes both name messages; at most three messages are reported |
| CliParser.MissingToolReported | rust/src/cli_parser.rs:417-428 | a missing tool is always reported, as the first message |
| CliParser.ValidateStopAgentOptions | rust/src/cli_parser.rs:290-315 | each failed rule pushes its message, and the options are valid exactly when they can be stopped |
| CliParser.StopValidIff | rust/src/cli_parser.rs:311-314 | no message is reported exactly when the options can be stopped |
| CliParser.StopWithoutIsolation | rust/src/cli_parser.rs:293-297 | with no isolation, the only message is that it is required |
| CliParser.StopDefaultsReported | rust/src/cli_parser.rs:457-464 | the default stop options report exactly that the isolation is required |
| CliParser.StopScreenValid | rust/src/cli_parser.rs:444-455 | screen isolation with a session name is valid, whatever else is set |
| CliParser.StopErrorsMeaning | rust/src/cli_parser.rs:293-309 | each stop message is reported exactly when its rule fails, and at most one is reported |
| Controller.NewErrorMeaning | rust/src/lib.rs:116-129 | `Agent::new` fails exactly on options that are not creatable; an empty tool is reported before anything else, an empty working directory before the names, and each name message exactly when its isolation lacks the name |
| Controller.IsolatedStopCommandSpec | rust/src/lib.rs:210-225 | the stop command fails exactly when the configured isolation lacks its name, and is otherwise the screen quit command for the session or the docker stop-and-remove command for the container |
| Controller.PlainOutput | rust/src/lib.rs:258-262 | the plain output is stdout, followed, only when stderr is not empty, by a newline and stderr |
| Controller.ParsedOutput | rust/src/lib.rs:265-273 | parsed output is none exactly when no message was collected, and otherwise all the collected messages |
| Controller.SessionIdUpdate | rust/src/lib.rs:276-292 | `stop` sets a new session id exactly when the tool is supported, from that tool's own extractor |
| Controller.SessionIdUpdateClaude | rust/src/lib.rs:278-280 | for claude the new session id is none exactly when no parsed line carries a string `session_id`, and otherwise the first such line's |
| Controller.SessionIdKept | rust/src/lib.rs:276-292 | for a tool that is not supported, `stop` keeps the session id it had |
| Controller.ParsedOutputOfStdout | rust/src/lib.rs:264-273 | a fresh stream fed the process's stdout and flushed holds exactly the values the NDJSON parser finds in that stdout, and parsed output reports them, or none when there are none |
| Controller.Agent.Init | rust/src/lib.rs:131-136 | a new controller keeps the options and has no process, no output stream and no session id |
| Controller.Agent.New | rust/src/lib.rs:116-137 | `new` fails exactly on options that are not creatable, with the first failed check's message; otherwise it returns a fresh controller with the options and nothing started |
| Controller.Agent.Start | rust/src/lib.rs:146-199 | JSON mode gets a fresh, empty output stream; the command is `build_agent_command`'s as written (AgentCommandAsWritten) with the start's detached setting; a dry run and a successful launch succeed and a failed launch returns its error; only an attached, non-dry, successful launch keeps the process; the session id is untouched |
| Controller.Agent.Stop | rust/src/lib.rs:208-306 | under screen or docker: the command sent (or shown on a dry run) is `build_screen_stop_command` or `build_docker_stop_command` of the configured name, and none is sent in any other case; the result is the name error, the default result on a dry run, the stop run's error, or its exit code and stdout with no parsed output or session id; without isolation: an error when nothing was started or the wait failed, and otherwise the exit code, the plain output, the messages of the stream fed stdout and flushed, and the session id extracted for a supported tool; any other isolation fails with `Unsupported isolation mode: <mode>`; the process and the stream stay attached |
| Controller.Agent.GetMessages | rust/src/lib.rs:314-320 | the messages the output stream has collected, and none without a stream |

## Left out

- `rust/src/executor.rs` is not part of this model. It covers process spawning, pipe reading, exit codes and the signal-handler thread: I/O and concurrency.
- The two programs under `rust/src/bin/` are not part of this model. They are entry points that print and call `std::process::exit`. `rust/src/streaming/mod.rs` is not part of this model either; it only re-exports the streams.
- The awaits of `Agent::start` and `Agent::stop` become parameters:
  - `launch` stands for the outcome of `execute_detached` or `start_command`;
  - the `ProcessRun` it carries stands for the waited process, with its exit result, stdout and stderr;
  - `stopRun` stands for `execute_command`.
  The `attached` flag passed to `start_command` only affects process I/O, so it is not modelled.
- The `println!` calls (dry runs, detached notices) and the help texts of `rust/src/cli_parser.rs:163-238` are printing, not logic, and are left out.
- The session and container names that `build_screen_command` and `build_docker_command` derive from the clock (`agent-<millis>`) are a `generated` parameter.
- serde_json's parser and serialiser are the opaque `Codec` parameter. Nothing is proved about the JSON grammar itself. Ndjson.ParseAllStringifyAll, Ndjson.CompactLineParses and InputStream.ToStringReadsBack hold only for values the codec round-trips.
- The boxed callbacks `on_message`, `on_error` and `on_raw_line` of `JsonOutputStream` are foreign code and are not modelled.
- The `f64` `total_cost` of the agent usage is floating point and is not modelled; the other six counters are.
- Token counters are `nat`: u64 overflow of the `+=` sums is not modelled.
- Whitespace is the ASCII part of `char::is_whitespace` (space, tab, line feed, carriage return, vertical tab, form feed). Other Unicode whitespace is not modelled.
- `ToolRegistry::list` returns the keys of a `HashMap` in no fixed order, so the model states it as a set.
- `agent()` in `rust/src/lib.rs:330-332` only calls `Agent::new`, so Controller.Agent.New covers it.
- Controller.Agent.GetSessionId returns the session id field as it stands and carries no contract of its own.
- The claude branch of `build_agent_command` (`rust/src/command_builder.rs:132-139`) lists six fields of `ClaudeBuildOptions` and does not fill the rest. The model takes the defaults for the missing fields.
- The shell lexer covers only quoting, backslash escapes, `|` and `&&`. A line using anything else (globs, redirections, `;`, `#` and the like unquoted) reads as rejected, not as some other parse.
- Adapter commands: each adapter's `build_command` is modelled, and its contract proved, with the widened quoting test of Shell.EscapeArg (see Findings), not with the source's test. Shell.EscapeArgAgrees shows the two agree on every argument the source quotes and on every plain argument.
- Adapters.FlagCommandUntrimmed, Adapters.FlagCommandWords, Adapters.PipedCommandWords, Shell.JoinArgsEdges, Shell.AfterBlankArgs and Shell.CommandLine: stated for the widened Shell.EscapeArg. As written, an argument such as `it's` does not read back, and an empty argument disappears (or is trimmed away at the end).
- Claude.BuildCommandWords, Codex.BuildCommandWords, Opencode.BuildCommandWords, AgentTool.BuildCommandWords, Gemini.BuildCommandWords and Qwen.BuildCommandWords: the exact words hold for the widened Shell.EscapeArg, for the same reason.
- CommandBuilder.ScreenCommandWords, CommandBuilder.AgentCommandScreen and CommandBuilder.ScreenStopCommandWords: proved only for session names without `\`, `"`, `$` or a backtick. The source inserts the name unescaped into double quotes, where those characters have a meaning of their own.
- CommandBuilder.DockerCommandWords, CommandBuilder.AgentCommandDocker and CommandBuilder.DockerStopCommandWords: the same restriction, for the container name and the working directory.
- CommandBuilder.ToolCommandAsWrittenWords: proved only for prompts without `\`, `"`, `$` or a backtick, for the same reason.
- CommandBuilder.BaseCommandWords, CommandBuilder.BaseCommandAsWrittenWords, CommandBuilder.AgentCommandUnisolated and CommandBuilder.AgentCommandCorrectedWords: proved for a supported tool or a tool name of plain characters only. The generic builder writes the tool name unquoted.
- CommandBuilder.BaseCommandAsWrittenWords and CommandBuilder.AgentCommandUnisolated: the words of the generic command as written are stated only for prompts without `\`, `"`, `$` or a backtick, and the script's words only for a working directory of plain characters; other directories split or change meaning inside `cd` (see Findings).
- CommandBuilder.BuildAgentCommand and Controller.Agent.Start: the adapter branches use the adapters' commands as modelled, with the widened quoting test above; the generic builder and the `bash -c` wrapper are as written.
- The `parse_start_agent_args` test with isolation, the dry-run test and the stop test for screen are not restated one by one. CliParser.StartMeaning, CliParser.StopMeaning and CliParser.GetMeaning cover them for all arguments.

## Findings

| source | as written | input that shows it | evidently intended | confidence | as-written member | corrected member |
|---|---|---|---|---|---|---|
| rust/src/tools/claude.rs:145-149 | `escape_arg` quotes only arguments holding `"`, whitespace, `$`, a backtick or a backslash; the same test is in all six adapters | the prompt `it's` is emitted bare, and the shell sees an unterminated single quote | quote every argument the shell would not read back verbatim | not executed | Shell.EscapeArgAsWrittenApostrophe | Shell.EscapeArgRoundTrip |
| rust/src/tools/claude.rs:157-158 | an empty argument is emitted as nothing | the value of `--resume ""` vanishes from the command line | an empty argument is kept as an empty word (`""`) | not executed | Shell.EscapeArgAsWrittenEmpty | Shell.EscapeArgRoundTrip |
| rust/src/command_builder.rs:44-49 | `build_tool_command` escapes each prompt for single quotes (`'\''`) and then puts it in double quotes | the prompt `It's` reaches the tool as `It'\''s` | the tool receives the prompt text itself | not executed | CommandBuilder.ToolCommandAsWrittenAltersQuotes | CommandBuilder.ToolCommandWords |
| rust/src/command_builder.rs:177-181 | the working directory goes into `cd {}` escaped for double quotes but not quoted | the directory `/tmp/my dir` reaches `cd` as the two arguments `/tmp/my` and `dir` | `cd` receives the one directory | not executed | CommandBuilder.ScriptAsWrittenSplitsDirectory | CommandBuilder.ScriptWords |
