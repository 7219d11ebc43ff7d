# NyxBot command layer in Dafny

A model of the command-handling core of NyxBot, a Discord bot written in
TypeScript. It covers:

- the text command parser, which turns `!tag command args` into a record;
- the command decorators, which build the per-class list of command descriptors and attach usage text to them;
- the execution envelope that the bot surface and every plugin share;
- the bot's own join, leave and rename commands, with the "voice starter" who owns a voice connection;
- the guard logic of the music plugin;
- the help and usage pages;
- the plugin manager's selection and caching of plugins;
- two small utilities: `TypeUtils.ToBool` and the logger's context path and line format.

Everything is pure functions over immutable datatypes.

- **Platform calls.** Sending a message, joining or leaving a voice channel, setting a nickname and the voice-queue operations are returned as a list of `Discord.Effect` values, in the order the source issues them.
- **State.** State the source keeps in fields is threaded through explicitly: the voice starter, the music plugin's "was stopped" flag and last channel, and the plugin manager's maps.
- **Helpers whose bodies are not part of this model** become parameters. These are `InputParserUtils.ParseCommandArgs`, `CommandUtils.LoadCommandRegistry`, `CommandUtils.GetCommandHelp`, the video-site URL and id checks, and the plugin factories.

Modules follow the source files:

| Dafny module | Source file |
|---|---|
| `InputParser` | `src/utils/inputparserutils.ts` |
| `CommandApi` | `src/command/commandapi.ts` |
| `CommandUtils` | `src/utils/commandutils.ts` |
| `CommandDecorator` | `src/command/commanddecorator.ts` |
| `LegacyCommandDecorator` | `src/decorators/commanddecorator.ts` |
| `CommandSurface`, `Plugin` | `src/plugins/plugin.ts` |
| `BotCommands` | `src/bot/botcommands.ts` |
| `MusicPlugin` | `src/plugins/music/musicplugin.ts` |
| `UsageCommand` | `src/bot/utils/usagecommandutils.ts` |
| `HelpCommand` | `src/bot/utils/helpcommandutils.ts` |
| `PluginManager` | `src/plugins/pluginmanager.ts` |
| `TypeUtils` | `src/utils/typeutils.ts` |
| `LoggerUtils` | `src/utils/loggerutils.ts` |

Four shared modules support them:

- `Options`: an option type.
- `Text`: JavaScript's `\s` class, ASCII case mapping, and `split`/`join` with a one-character separator, including `split` with a limit.
- `OrderedMap`: a JavaScript `Map` that keeps insertion order, where `set` replaces in place.
- `Discord`: the platform types and effects.

Points where the code's behaviour is easy to misread:

- **Arity.** `NumParams` is `params.length`, so it counts every declared parameter, the message-info parameter included.
- **Space parser.** `ParamParserSpaces` returns its arguments unchanged. Its body is a TODO.
- **Command prefix.** The prefix is the fixed character `!`.
- **Plugin argument lookup.** A plugin asks the argument parser about `parsedCommand.Tag`, not `parsedCommand.Command`, so the registry, which is keyed by command names, is searched for the plugin tag.
- **Parser splitting.** `split(' ', 1)` keeps only the first piece; see Findings.

## Model

| member | source | states |
|---|---|---|
| InputParser.ParseTextForCommandInfo | src/utils/inputparserutils.ts:13-39 | null exactly when the text does not start with `!`; otherwise `"!" + Tag` is a prefix of the text, Tag holds no space and is followed by a space or the end, and RawContent, Command and Args are always empty |
| InputParser.BarePrefix | src/utils/inputparserutils.ts:17-25 | the input `!` parses to an empty tag with every other field empty |
| InputParser.RestOfLineDropped | src/utils/inputparserutils.ts:18-33 | for any space-free tag, `!tag rest` parses to `tag` with RawContent, Command and Args empty, so the rest of the line is lost |
| InputParser.ParseTextSplitOnce | src/utils/inputparserutils.ts:13-39 | the corrected parser: the text is `"!" + Tag + " " + RawContent` when it has a space, and RawContent is `Command + " " + Args` when that has a space; tag and command hold no space |
| InputParser.ParsersAgreeOnTag | src/utils/inputparserutils.ts:15-25 | the parser as written and the corrected one agree on which texts are commands and on the tag |
| Text.SplitLimit | src/utils/inputparserutils.ts:18 | `split(sep, limit)` is the first `limit` pieces of the unlimited split, and has at least one piece when the limit is at least one |
| CommandApi.ParserTypeValues | src/command/commandapi.ts:23-28 | `ParamParserType` is exactly SPACES=0, ALL=1, CUSTOM=2, and value and member convert both ways |
| CommandApi.ExecuteResultValues | src/command/commandapi.ts:30-34 | `ExecuteCommandResult` is exactly CONTINUE=0 and STOP=1, and the values are distinct |
| CommandApi.ErrorCodeValues | src/command/commandapi.ts:36-48 | SUCCESS is 0, followed by nine failure codes with distinct values 1..9 in declaration order, and every code is listed |
| CommandUtils.ParamParserSpacesApply | src/utils/commandutils.ts:10-14 | the space parser returns its argument list unchanged, element by element |
| CommandUtils.ParamParserAllApply | src/utils/commandutils.ts:16-19 | the whole-line parser returns its argument list unchanged, element by element |
| CommandUtils.NewCommandMetaData | src/utils/commandutils.ts:24-69 | CommandName is the given name or the key, and FunctionName is the key; a supplied parser forces CUSTOM and override and ignores the type; a type alone is stored with override, and CUSTOM keeps the space parser; with neither, the SPACES default applies without override; NumParams is the number of declared parameters; Usage is empty |
| CommandUtils.NewDescriptorParserFieldsAgree | src/utils/commandutils.ts:35-56 | the built descriptor's parser and parser type are consistent: SPACES and ALL carry their built-in parser, and a supplied parser carries CUSTOM |
| CommandUtils.RegisterCommandMetaData | src/utils/commandutils.ts:21-76 | exactly one descriptor is appended, an absent list counts as empty, and earlier descriptors are unchanged |
| CommandDecorator.PluginCommand | src/command/commanddecorator.ts:12-19 | registers through the shared builder and hands back the property descriptor unchanged |
| CommandDecorator.BotCommand | src/command/commanddecorator.ts:23-30 | registers through the shared builder and hands back the property descriptor unchanged |
| CommandDecorator.BotCommandIsPluginCommand | src/command/commanddecorator.ts:12-30 | the two decorators produce identical registrations on every input |
| CommandDecorator.CollapseLeavesNoAdjacentWhitespace | src/command/commanddecorator.ts:53 | after `replace(/\s\s+/g, '\n')` no two neighbouring characters are both whitespace |
| CommandDecorator.RunBecomesNewline | src/command/commanddecorator.ts:53 | a leading maximal run of two or more whitespace characters is replaced by exactly one `'\n'`, and the text after it is collapsed on its own |
| CommandDecorator.CollapseAfterText | src/command/commanddecorator.ts:53 | text that does not end in whitespace is collapsed independently of what follows it |
| CommandDecorator.RunAnywhere | src/command/commanddecorator.ts:53 | a maximal run of two or more whitespace characters anywhere in the text becomes exactly one `'\n'`, with the text on each side collapsed on its own |
| CommandDecorator.CollapseKeepsSettledText | src/command/commanddecorator.ts:53 | text with no two adjacent whitespace characters is left unchanged |
| CommandDecorator.CollapseIdempotent | src/command/commanddecorator.ts:53 | normalising twice is the same as normalising once |
| CommandDecorator.CollapsePreservesText | src/command/commanddecorator.ts:53 | normalising keeps every non-whitespace character, in order |
| CommandDecorator.FindFunction | src/command/commanddecorator.ts:49-52 | finds the first descriptor whose FunctionName is the key, or reports that there is none |
| CommandDecorator.Usage | src/command/commanddecorator.ts:32-61 | fails exactly when there is no descriptor list or no descriptor for the key; otherwise only the first matching descriptor gets the normalised usage, every other descriptor is unchanged, and the property descriptor is returned |
| LegacyCommandDecorator.PluginCommand | src/decorators/commanddecorator.ts:11-70 | the older inline builder appends one descriptor with the key as FunctionName, arity equal to the parameter count, empty usage, and the name override |
| LegacyCommandDecorator.AgreesWithSharedBuilder | src/decorators/commanddecorator.ts:15-68 | on every input, the older decorator registers exactly what the shared builder registers, so both follow the same parser precedence and defaults |
| CommandSurface.HandlerArgs | src/plugins/plugin.ts:52-54 | the handler receives the message info first, then the parsed arguments in order |
| CommandSurface.TryExecuteCommand | src/plugins/plugin.ts:43-60 | always STOP; the parser is asked about the parsed tag and raw content; a handler is called exactly when parsing succeeds, with the chosen function and `[messageInfo] ++ args`, and its result is returned; otherwise the usage error is returned |
| Plugin.IsCommand | src/plugins/plugin.ts:17-20 | holds exactly when the command is a key of the registry |
| Plugin.IsReadingMessages | src/plugins/plugin.ts:22-25 | always false |
| Plugin.Initialize | src/plugins/plugin.ts:27-39 | tag and alias become `''`, the default parser is SPACES, and the registry is the loaded one |
| Plugin.TryExecuteCommand | src/plugins/plugin.ts:43-60 | always STOP; a parse failure gives the bare code INCORRECT_BOT_COMMAND_USAGE and calls nothing; otherwise the handler is called exactly once, with the parsed function name and the message info followed by the parsed arguments in order, and the `CommandError` it returns is passed on as it is |
| BotCommands.IsCommand | src/bot/botcommands.ts:23-26 | holds exactly when the command is a key of the registry |
| BotCommands.IsReadingMessages | src/bot/botcommands.ts:28-31 | always false |
| BotCommands.Initialize | src/bot/botcommands.ts:33-45 | tag `bot`, alias `b`, default parser SPACES, and no voice starter |
| BotCommands.TryExecuteCommand | src/bot/botcommands.ts:47-64 | always STOP; a parse failure gives `New(INCORRECT_BOT_COMMAND_USAGE)` and calls nothing; otherwise the chosen handler is called with `[messageInfo] ++ args` and its result is returned |
| BotCommands.Hello | src/bot/botcommands.ts:131-136 | sends `Hello <@author>` to the channel and succeeds |
| BotCommands.ChangeBotName | src/bot/botcommands.ts:110-124 | asks for the nickname; succeeds exactly when the platform accepts it, and otherwise returns INSUFFICIENT_BOT_PERMISSIONS |
| BotCommands.JoinMe | src/bot/botcommands.ts:166-188 | no guild member gives GUILD_ONLY_COMMAND with nothing changed; a member in voice becomes the voice starter and the bot joins that channel; otherwise only the not-in-voice message is sent |
| BotCommands.Candidates | src/bot/botcommands.ts:205-211 | the candidates are exactly the voice channels whose lower-cased name equals the lower-cased request |
| BotCommands.CandidatesAppend | src/bot/botcommands.ts:205-211 | the candidates of a concatenation are the candidates of each part in order, so the search keeps collection order |
| BotCommands.FirstExactName | src/bot/botcommands.ts:226-233 | the first candidate whose name matches the request exactly, or none exactly when no candidate does |
| BotCommands.ExactAmongCandidates | src/bot/botcommands.ts:205-233 | the first exact name among the candidates is the first voice channel of the whole collection with that exact name |
| BotCommands.SelectVoiceChannelSpec | src/bot/botcommands.ts:205-244 | nothing is chosen exactly when no voice channel matches up to case; a chosen channel always matches; with several matches the choice is the first exact-case voice channel, and the request is ambiguous exactly when there is none |
| BotCommands.JoinChannel | src/bot/botcommands.ts:196-252 | no member gives GUILD_ONLY_COMMAND; no match sends the no-such-channel message; a chosen channel is joined and the author becomes the voice starter; an ambiguous name sends the capitalisation message and joins nothing |
| BotCommands.Leave | src/bot/botcommands.ts:259-280 | with no starter, only a message is sent and the result is Success; the starter clears it and the bot leaves; anyone else gets INSUFFICIENT_USER_PERMISSIONS with nothing changed |
| BotCommands.VoiceStarterOwnership | src/bot/botcommands.ts:167-280 | the voice starter changes only to the author of a join that actually joins, and is cleared only by the starter |
| BotCommands.JoinThenLeave | src/bot/botcommands.ts:167-280 | after a successful `!join`, the same user can make the bot leave, and anyone else is refused with nothing changed |
| MusicPlugin.InitPlugin | src/plugins/music/musicplugin.ts:14-21 | tag `music`, alias `m`, and the was-stopped flag cleared |
| MusicPlugin.Initialize | src/plugins/plugin.ts:27-39 | the base reset followed by `InitPlugin`: tag `music`, alias `m`, the SPACES parser and parser type, not stopped, and no last channel |
| MusicPlugin.OnVoiceRequestStarted | src/plugins/music/musicplugin.ts:39-44 | remembers the request's channel and announces the song there |
| MusicPlugin.OnVoiceRequestQueueFinished | src/plugins/music/musicplugin.ts:29-37 | the finished notice is sent exactly when the queue was not stopped on purpose, and the flag is always reset |
| MusicPlugin.Play | src/plugins/music/musicplugin.ts:52-72 | guards are checked in order (already playing, empty queue, not in voice), each with its own message and no effect; only when all pass does it announce and play |
| MusicPlugin.PlaySong | src/plugins/music/musicplugin.ts:80-113 | a link that is neither a valid URL nor a valid id gives INCORRECT_PLUGIN_COMMAND_USAGE and adds nothing; an id is turned into a watch URL; the request starts playing exactly when the bot is in voice; "Queued" is sent exactly when not in voice or already playing |
| MusicPlugin.Stop | src/plugins/music/musicplugin.ts:121-132 | fails without effect when nothing is playing or queued; otherwise it sets the was-stopped flag, announces, and clears the queue |
| MusicPlugin.Pause | src/plugins/music/musicplugin.ts:140-155 | succeeds exactly when a song is playing and not paused; otherwise a specific message and no effect |
| MusicPlugin.Resume | src/plugins/music/musicplugin.ts:163-178 | succeeds exactly when a song is playing and paused; otherwise a specific message and no effect |
| MusicPlugin.Skip | src/plugins/music/musicplugin.ts:186-196 | succeeds exactly when a song is playing, then announces it and removes the current request |
| MusicPlugin.PauseResumeExclusive | src/plugins/music/musicplugin.ts:140-178 | pause and resume never both succeed on the same queue state |
| MusicPlugin.PauseThenResume | src/plugins/music/musicplugin.ts:140-178 | after an accepted pause has paused the queue, resume is accepted and a second pause is refused as already paused; after an accepted resume, pause is accepted and a second resume is refused as not paused |
| MusicPlugin.StopSilencesNextQueueFinished | src/plugins/music/musicplugin.ts:29-132 | a successful stop silences exactly the next queue-finished notice, and the one after it is announced again |
| UsageCommand.AccumulateUsage | src/bot/utils/usagecommandutils.ts:20-31 | the `forEach` loop builds exactly the usage lines (each usage plus `\n`) joined by `\n` |
| UsageCommand.UsageBlockEmptyIffNoDescriptors | src/bot/utils/usagecommandutils.ts:25-36 | the usage block is empty exactly when the command has no descriptors, since even an empty usage contributes `\n` |
| UsageCommand.GetUsage | src/bot/utils/usagecommandutils.ts:6-54 | with a tag, nothing is sent and the result is SUCCESS; without a command, the how-to text goes first and `usage` is documented; an unknown command gives UNRECOGNIZED_BOT_COMMAND; a known one sends its header and usage block, or the no-documentation notice, with SUCCESS |
| HelpCommand.EntryLinesIsJoin | src/bot/utils/helpcommandutils.ts:44-45 | appending each entry plus `\n` is joining the entries and a final empty line with `\n` |
| HelpCommand.BotPageLines | src/bot/utils/helpcommandutils.ts:39-48 | when no entry contains a newline, the bot page splits into the title, the entries in order, and the empty text after the last newline |
| HelpCommand.ApplyModifier | src/bot/utils/helpcommandutils.ts:9-13 | a message goes through the modifier when one is given, and is unchanged otherwise |
| HelpCommand.GetHelp | src/bot/utils/helpcommandutils.ts:7-37 | page `''` sends the how-to text; `all` and `bot` send the bot page; `plugin`, `plugins` and `tags` send the plugin-tags text; any other page sends nothing; at most one message is sent |
| HelpCommand.AllPageIsBotPage | src/bot/utils/helpcommandutils.ts:19-28 | the `all` and `bot` pages send the same message |
| OrderedMap.Set | src/plugins/pluginmanager.ts:219 | `Map.set` on an existing key keeps the keys and their order; on a new key it appends |
| OrderedMap.GetAfterSet | src/plugins/pluginmanager.ts:177-179 | after `set(k, v)`, `get(k)` is `v` and every other key reads as before |
| OrderedMap.SetKeepsKeysDistinct | src/plugins/pluginmanager.ts:177-179 | `set` never gives a key two entries, so a map built by `set` holds each key once, as a JavaScript `Map` does |
| PluginManager.NewManager | src/plugins/pluginmanager.ts:93-99 | a new manager has no plugins and empty caches, and so is well formed: no name occurs twice in any of its maps |
| PluginManager.RegisterPlugin | src/plugins/pluginmanager.ts:217-222 | the factory is stored under its name, replacing any earlier one in place |
| PluginManager.RegisterPluginKeepsWellFormed | src/plugins/pluginmanager.ts:217-222 | registering keeps every name unique in every map of the manager |
| PluginManager.Multi | src/plugins/pluginmanager.ts:157-161 | `Multi` is true when unspecified, and the given value otherwise |
| PluginManager.RequestedNames | src/plugins/pluginmanager.ts:204-212 | a non-empty name is tried alone, and an array is tried as given (even an empty one); otherwise every registered name is tried, in registration order |
| PluginManager.InstantiatePlugin | src/plugins/pluginmanager.ts:245-266 | an unregistered name gives nothing; a factory error gives nothing and one `OnError` naming the plugin when a handler is given; otherwise the entry holds the factory's instance, config and file path, even when the instance is null |
| PluginManager.InstantiateSelectsLoadable | src/plugins/pluginmanager.ts:224-243 | with `Multi`, the loaded plugins are exactly the loadable requested names in the order given; without it, only the first of them |
| PluginManager.LoadedComeFromFactories | src/plugins/pluginmanager.ts:224-266 | every loaded plugin was requested, is registered and carries its factory's results; without `Multi` at most one loads |
| PluginManager.InstantiateErrorsNamePlugins | src/plugins/pluginmanager.ts:250-257 | every error raised while instantiating names its plugin |
| PluginManager.CacheAllGet | src/plugins/pluginmanager.ts:170-180 | after caching, a name reads as its last loaded plugin's value, and names that were not loaded read as before |
| PluginManager.CompletionCall | src/plugins/pluginmanager.ts:166-191 | `OnComplete` receives parallel instance, config and name lists, one entry per loaded plugin, in load order |
| PluginManager.Completion | src/plugins/pluginmanager.ts:165-193 | "No plugins were loaded." is reported, without a plugin, exactly when nothing loaded and an error handler exists; `OnComplete`, when given, comes last; without it only errors are reported |
| PluginManager.Complete | src/plugins/pluginmanager.ts:163-194 | the three caches are updated with every loaded plugin, the plugin registry is unchanged, and the callbacks are those of `Completion` |
| PluginManager.LoadPlugins | src/plugins/pluginmanager.ts:150-215 | the plugin registry is unchanged; with no plugins registered nothing loads and the manager is unchanged; without `Multi` at most one plugin loads |
| PluginManager.LoadPluginsSelects | src/plugins/pluginmanager.ts:204-243 | with plugins registered, the loaded names are the loadable requested names, all of them with `Multi` and only the first without it |
| PluginManager.LoadPluginsCallbacks | src/plugins/pluginmanager.ts:163-201 | "No plugins were loaded." is reported exactly when the result is empty and an error handler exists; `OnComplete` comes last with parallel instance, config and name lists in load order |
| PluginManager.LoadPluginsCaches | src/plugins/pluginmanager.ts:170-180 | after loading, each name's cached instance is that of its last loaded plugin, and other names keep their earlier cache entry |
| PluginManager.LoadPluginsKeepsWellFormed | src/plugins/pluginmanager.ts:170-180 | loading keeps every name unique in the instance, config and file-path caches |
| PluginManager.GetPlugin | src/plugins/pluginmanager.ts:101 | a cached instance is returned as cached; a name never cached, or cached without an instance, reads as nothing |
| PluginManager.GetPlugins | src/plugins/pluginmanager.ts:102 | the cached instances in first-cached order, element by element; every `GetPlugin` answer for a cached name is among them; in a well-formed manager that is one entry per cached name |
| PluginManager.GetPluginConfig | src/plugins/pluginmanager.ts:103 | nothing exactly when no config is cached under the name; otherwise the config stored under the name's entry |
| PluginManager.GetPluginConfigs | src/plugins/pluginmanager.ts:104 | the cached configs, one per cached name, in first-cached order; every `GetPluginConfig` answer is among them |
| PluginManager.GetPluginAfterLoad | src/plugins/pluginmanager.ts:170-180 | after a load, `getPlugin` returns the instance of the last plugin loaded under the name, and what it returned before for a name not loaded |
| PluginManager.ReloadOverwritesCache | src/plugins/pluginmanager.ts:177-179 | loading the same name twice leaves the second instance in the cache |
| TypeUtils.LowerEqualsIffIgnoringCase | src/utils/typeutils.ts:11-15 | comparing the lower-cased string with a lower-case word is comparing the two without regard to case |
| TypeUtils.ToBool | src/utils/typeutils.ts:3-24 | a boolean is returned unchanged; a string gives true exactly when it spells "true" in any case and false exactly when it spells "false"; anything else gives null |
| TypeUtils.ToBoolReadsPrintedBool | src/utils/typeutils.ts:9-18 | `"true"` and `"false"`, in lower or upper case, read back as their boolean |
| TypeUtils.ToBoolStringIsBoolText | src/utils/typeutils.ts:9-21 | a string read as a boolean is that boolean's spelling up to case |
| LoggerUtils.CreateLoggerInstance | src/utils/loggerutils.ts:66-93 | an existing backend is left alone, and otherwise one is created |
| LoggerUtils.CreateLoggerInstanceOnce | src/utils/loggerutils.ts:69-70 | any number of creation calls leave the backend exactly as the first call made it |
| LoggerUtils.NewLogger | src/utils/loggerutils.ts:25-44 | with no parent, the context is the name; with a string parent `p`, it is `p.name`; with a logger parent, it is the parent's context, `.`, then the name; the backend is ensured |
| LoggerUtils.NestedLoggerContext | src/utils/loggerutils.ts:34-42 | a chain of nested loggers has the names joined with `.` as its context |
| LoggerUtils.NestedLoggerContextSplits | src/utils/loggerutils.ts:34-42 | when no name contains `.`, splitting the context on `.` gives back the names |
| LoggerUtils.Log | src/utils/loggerutils.ts:46-59 | a log call carries its level and the logger's context, and its message is the arguments joined by single spaces (empty for no arguments, the argument itself for one) |
| LoggerUtils.LogMessageSplits | src/utils/loggerutils.ts:48 | when there is at least one argument and none contains a space, splitting the message on spaces gives the arguments back |
| LoggerUtils.LogFormatter | src/utils/loggerutils.ts:100-108 | the line starts `[time] [`, ends with the message, is exactly ten characters longer than its parts, and the level has no lower-case letter |
| LoggerUtils.LogFormatterIsLogLine | src/utils/loggerutils.ts:103-107 | the formatted line is the `[time] [LEVEL] [context]: message` layout with the level upper-cased |
| LoggerUtils.ParseLogLineOf | src/utils/loggerutils.ts:107 | a line in that layout reads back as its four parts when no bracketed part contains `]` |
| LoggerUtils.ParseLogFormatter | src/utils/loggerutils.ts:100-108 | a formatted line reads back as its time, upper-cased level, context and message |
| LoggerUtils.LogFormatterLevels | src/utils/loggerutils.ts:103 | each custom level (Error, Warning, Debug) is printed in capitals (`ERROR`, `WARNING`, `DEBUG`) in the line layout |

## Left out

- Discord I/O: sending, joining, leaving, renaming and the voice-queue operations are effects in a returned list. Awaiting them, and their failures, are not modelled, except a refused nickname, which is a parameter.
- async/await: every handler runs to completion in sequence.
- `InputParserUtils.ParseCommandArgs` (overload selection and argument splitting): its body is not part of this model, so it is a function parameter of `TryExecuteCommand`.
- `CommandUtils.LoadCommandRegistry` and `CommandUtils.GetCommandHelp`: their bodies are not part of this model. The loaded registry and the help entries are parameters.
- `CommandError.New/Success/Custom`: modelled as a datatype with those three forms.
- `Reflect.getMetadata`/`defineMetadata` and `get-parameter-names`: the descriptor list and the parameter names are passed explicitly.
- Logging calls: the sources disagree here. The callers use `logger.Verbose` (src/utils/commandutils.ts:72, src/command/commanddecorator.ts:54) and `Logger.CreateLogger` (src/plugins/plugin.ts:29, src/bot/botcommands.ts:35). The `Logger` of src/utils/loggerutils.ts defines neither; it has only a constructor, `Debug`, `Warning` and `Error`. As written, those calls do not type-check. In plain JavaScript they would throw: in `RegisterCommandMetaData` before the descriptor is pushed, in `Usage` after the usage is stored, and in both `Initialize` methods before any field is set. The model treats every logging call as having no effect, as a logger that defines those members would. That covers these calls and the `Usage` decorator's `logger.Error` (src/command/commanddecorator.ts:40).
- `RegisterVoiceEventHandler` in `Initialize` and `InitPlugin`: event wiring, outside the command logic.
- `_ChangeBotAvatar_` (HTTP image download), `_Shutdown_`, `_Help_`, `_HelpPage_`, `_Usage_`, `_UsageBot_` and `_UsagePlugin_`: forwarding calls into platform I/O or into `GetHelp`/`GetUsage`, which are modelled.
- BotCommands.ChangeBotName: `messageInfo.Guild.me` on a direct message (no guild) is not modelled. The platform's answer to the nickname request is a parameter.
- MusicPlugin.OnVoiceRequestQueueFinished: before any song has started, the source sends to an undefined channel. The model uses the placeholder `UnsetChannel` there.
- Users and channels are compared by id.
- BotCommands.NameMatches: lower-casing is ASCII-only, so names that differ only in non-ASCII letters are not matched as JavaScript's `toLowerCase` would match them. `TypeUtils.ToBool` is unaffected, because no non-ASCII character lower-cases to a letter of "true" or "false".
- LoggerUtils.LogFormatter: upper-cases ASCII letters only, where JavaScript's `toUpperCase` also maps other letters. The bot's own levels are ASCII words, so their lines are unaffected.
- The `split` limit and the `\s\s+` replacement are modelled for a one-character separator and JavaScript's `\s` class only.
- `ScanSubdirs`, `LoadPluginFromDirectory`, `SaveConfigFile` and `PluginModule`: filesystem and `require`. A factory is represented by what it passes to its callback.
- PluginManager.GetPlugin: an unknown name and a plugin whose class was not found both read as nothing. JavaScript distinguishes `undefined` from `null` there.
- `OnError`'s `Error` object is represented by its message, and its info object by the plugin name.
- Winston transports, colours and level filtering are not modelled. The timestamp (`new Date().toLocaleString()`) is a parameter of `LogFormatter`.
- LoggerUtils.NewLogger: a parent that is neither a string nor a `Logger` is not modelled. It would give the context `.name`, and the declared type rules it out.
- `GetUsage` with a plugin tag does nothing in the source (a TODO), and the model does the same.
- `src/command/command.ts` repeats the types of `src/command/commandapi.ts`, which are modelled once. `src/plugins/test/testplugin.ts` has no logic. Neither is modelled separately.
- Image utilities, client login, event wiring and build tooling are outside the command layer.

## Findings

| source | as written | input that shows it | evidently intended | confidence | as-written member | corrected member |
|---|---|---|---|---|---|---|
| src/utils/inputparserutils.ts:18 | `text.split(' ', 1)` keeps only the first piece, so the `temp.length > 1` branches never run and RawContent, Command and Args are always empty | `!music play x` parses to tag `music` with RawContent `""` | split once at the first space: the rest of the line is RawContent, whose first word is Command and whose remainder is Args | high (not executed) | InputParser.RestOfLineDropped | InputParser.ParseTextSplitOnce |
