# hapi-md in Dafny

A model of hapi-md, a hapi web site that serves markdown documentation, and of
the development orchestrator that runs it. The model covers the parts of the
code that make decisions:

- **The development orchestrator** (`scripts/_helpers.ts`, `scripts/watch.ts`):
  - the per-key process table behind `spawnAndReload`, as a class `Supervisor` over a state machine of restart requests, finished respawns and process events;
  - the `.env` merge of `saveEnv`;
  - the file-change listener and its label router;
  - the backend port guard, as a loop over probe outcomes;
  - the console command dispatcher and the reload hub's message handler, as a class `DevWatcher`.
- **The request logger** (`src/server/plugins/logger/index.ts`):
  - option checks and filter defaults at registration;
  - error classification;
  - the request record with its `omit` and `pick` loops;
  - stack stripping;
  - the records of server events;
  - the `loggable` and `colored` text helpers.
- **The markdown documentation plugins**:
  - the newer `src/server/plugins/md-docs/index.ts`: recursive discovery of `.md` files, slugs, publication and update dates, keywords, the registration loop and the route handler with its headers;
  - the older `server/plugins/md-docs/index.ts`: every file is routed and the html is served directly;
  - their server methods in `src/server/plugins/md-docs/method.ts`: the frontmatter stack, the table-of-contents rewrite and the cache options.
- **The small helpers**:
  - the view URL helpers;
  - the EJS context merge of the vision override;
  - the policy routes and GitHub commit links;
  - the RSS feed;
  - `dependencyInjectServer` and `registerMethods`;
  - the millisecond conversions;
  - the Vite asset-directory rule.

Two support modules hold the JavaScript semantics the code relies on:

- `JsString`: `indexOf`, `split`/`join`, `replace` with a string pattern, `trim`, `startsWith`.
- `JsValue`: values, truthiness, `String(v)`, object spread and `Hoek.applyToDefaults`.

Three kinds of code are modelled imperatively:

- **Code that mutates module state**: the process table, the watcher's state, the frontmatter stack and the server method table. These are classes whose methods are proved equal to step functions of the old state.
- **Code that loops**: the `omit`/`pick` loops, file discovery, the registration loops, the header loop and the guard. These are methods with loop invariants, proved equal to specification functions.
- **Everything else**, which is pure: functions and lemmas.

## Model

| member | source | states |
|---|---|---|
| ProcessTable.WithDefaults | scripts/_helpers.ts:106-110 | an omitted `beforeSpawn`, `afterSpawn` or `afterClose` is a no-op; a given one is kept |
| ProcessTable.Supervisor.constructor | scripts/_helpers.ts:78-87 | both slots start out `null`, with no processes, pending respawns or effects |
| ProcessTable.Supervisor.SpawnAndReload | scripts/_helpers.ts:96-150 | the new table is the request step of the old one, and the table stays well formed (slots name processes of their own key; closed processes keep no listeners) |
| ProcessTable.RequestStepValid | scripts/_helpers.ts:112-150 | a restart request keeps the table well formed |
| ProcessTable.EmptySlotRespawnsAtOnce | scripts/_helpers.ts:132-136 | on a `null` slot the respawn starts at once, no kill is sent, and no slot or process changes |
| ProcessTable.RunningSlotKillsAndDefers | scripts/_helpers.ts:139-146 | on a running process, SIGTERM is sent and the respawn is added to its `close` listeners; nothing starts and no other process or slot changes |
| ProcessTable.ExitedSlotRespawnsWithoutKill | scripts/_helpers.ts:148-149 | on an exited process the respawn starts at once and no kill is sent |
| ProcessTable.Supervisor.Respawn | scripts/_helpers.ts:114-116 | starting a respawn queues it and records its `beforeSpawn`; slots and processes are unchanged |
| ProcessTable.Supervisor.FinishRespawn | scripts/_helpers.ts:114-128 | after `beforeSpawn`, the pending respawn launches a process, overwrites its key's slot, and the table stays well formed |
| ProcessTable.RespawnStepValid | scripts/_helpers.ts:114-128 | a finished respawn keeps the table well formed |
| ProcessTable.RespawnOverwritesOnlyItsSlot | scripts/_helpers.ts:114-118 | only the slot of the respawned key changes; the new process carries exactly the request's hooks and no listeners; existing processes are untouched |
| ProcessTable.SetSlot | scripts/_helpers.ts:118 | after assignment the key's slot names the given process |
| ProcessTable.Supervisor.OnSpawn | scripts/_helpers.ts:120-123 | the first `spawn` event schedules that process's own `afterSpawn` |
| ProcessTable.Supervisor.OnExit | scripts/_helpers.ts:139 | an exit only sets the process's `exitCode` |
| ProcessTable.Supervisor.OnClose | scripts/_helpers.ts:125-128 | the `close` event runs the process's listeners in order (a loop), keeping the table well formed |
| ProcessTable.StartAll | scripts/_helpers.ts:142 | starting registered respawns queues them in order and changes no slot or process |
| ProcessTable.StartAllSpec | scripts/_helpers.ts:142 | each started respawn records its own `beforeSpawn`, in registration order |
| ProcessTable.CloseEventStepValid | scripts/_helpers.ts:125-128 | a `close` event keeps the table well formed |
| ProcessTable.CloseStartsDeferredRespawns | scripts/_helpers.ts:125-146 | on `close` the process's own `afterClose` is scheduled first, then every deferred respawn starts in registration order; no slot changes |
| ProcessTable.AfterDuplicateRestarts | scripts/_helpers.ts:139-146 | two restarts while the server runs leave two live server processes after its `close`: duplicates are not serialised |
| EnvFile.SplitAssignmentIsDestructuring | scripts/_helpers.ts:267-272 | cutting a line at its first `=` gives the same pair as `const [key, ...value] = line.split('=')` with `value.join('=')`, so later `=` stay in the value |
| EnvFile.SplitAssignmentParts | scripts/_helpers.ts:267-272 | the key never holds `=`, and key `=` value gives back a line that has one |
| EnvFile.SplitAssignmentOfLine | scripts/_helpers.ts:267-282 | a `key=value` line splits back into its pair when the key has no `=` |
| EnvFile.Entries | scripts/_helpers.ts:256-273 | there are at most as many existing entries as lines |
| EnvFile.EntriesComplete | scripts/_helpers.ts:256-273 | every non-blank, non-comment line contributes its pair |
| EnvFile.CommentAndBlankLinesIgnored | scripts/_helpers.ts:258-262 | a blank line or a `#` line never defines a variable, wherever it stands |
| EnvFile.NewLines | scripts/_helpers.ts:276-285 | the new lines are exactly the `key=value` lines of the variables whose key is not yet defined |
| EnvFile.SaveEnvKeepsText | scripts/_helpers.ts:288 | the old text is kept verbatim and followed by a newline, even when nothing is new |
| EnvFile.SaveEnvDefinesEveryKey | scripts/_helpers.ts:247-294 | after saving, every well-formed variable's key is defined in the file |
| EnvFile.SaveEnvEntries | scripts/_helpers.ts:247-294 | the saved file's entries are the old entries followed by the new lines' entries |
| EnvFile.NewEntryListed | scripts/_helpers.ts:276-285 | a well-formed new variable's line is among the new lines and parses back to it |
| EnvFile.Assign | scripts/watch.ts:257 | record assignment: an existing key keeps its place, a new key goes last, other entries are kept |
| EnvFile.AssignKeepsKeysDistinct | scripts/watch.ts:257 | record assignment keeps the keys distinct |
| Watch.SynonymListsDisjoint | scripts/_helpers.ts:183-189 | the restart, server, client and quit lists are pairwise disjoint |
| Watch.KillPortCommandNamesPort | scripts/_helpers.ts:175-178 | `killPort(p)` runs `kill -9 $(lsof -t -i:p)`, and the port can be read back from the command |
| Watch.DevWatcher.constructor | scripts/watch.ts:152-156 | start-up: empty change set, debug off, and the server and client spawned in that order |
| Watch.DevWatcher.OnFileChange | scripts/watch.ts:105-117 | the listener's new state is the listener step of the old one |
| Watch.BuildOutputIgnored | scripts/watch.ts:109-112 | a file name containing `assets/build` changes nothing |
| Watch.OtherChangesRecorded | scripts/watch.ts:114-115 | any other change, a missing file name included, is added to `changed` and arms the router with its label |
| Watch.Routes | scripts/watch.ts:55-97 | a label with `server`, `docs` or `views` restarts the server with the port guard; a label with `client` restarts the client with `afterClose: reload`; nothing else |
| Watch.WatchedLabelsRoute | scripts/watch.ts:159-162 | the four watched labels route to the guarded server restart or the client restart |
| Watch.DevWatcher.FlushDebounce | scripts/watch.ts:43-101 | the debounced call runs with the last label it was given |
| Watch.FlushRoutesAndClears | scripts/watch.ts:43-101 | the router appends exactly the routed restarts and empties `changed` |
| Watch.DevWatcher.OnMessage | scripts/watch.ts:131-145 | the hub's new state is the message step of the old one |
| Watch.MessagePublishesOnServerOnly | scripts/watch.ts:131-145 | a `server` message publishes a reload; a `browser` message only logs |
| Watch.RunPortGuard | scripts/watch.ts:61-88 | the guard's loop over attempts produces the guard's specified trace |
| Watch.GuardWithoutPort | scripts/watch.ts:63-67 | without `APP_PORT` the guard does nothing |
| Watch.GuardStopsWhenFree | scripts/watch.ts:79-88 | when the port is occupied up to attempt k (at most 3) and free at k, the guard ends with the probe at k after 2k+1 steps and never reclaims |
| Watch.GuardReclaimsOnce | scripts/watch.ts:69-77 | a port occupied on all four probes is reclaimed exactly once, at attempt 4 |
| Watch.KillActions | scripts/watch.ts:230-236 | one `killPort` per token, in order |
| Watch.VarsEnvKeepsNodeEnv | scripts/watch.ts:250-254 | `NODE_ENV` is neither set nor changed |
| Watch.VarsEnvKeepsOthers | scripts/watch.ts:246-261 | keys that no token assigns keep their values |
| Watch.VarsEnvLastWins | scripts/watch.ts:246-261 | every assigned key other than `NODE_ENV` ends with the value of its last token, later `=` kept |
| Watch.VarsRecordSpec | scripts/watch.ts:244-263 | the record saved has distinct keys, no `NODE_ENV`, and the last value of every other key |
| Watch.VarsRecordLastWins | scripts/watch.ts:246-261 | the last token assigning a key other than `NODE_ENV` is in the saved record |
| Watch.DevWatcher.SetVariables | scripts/watch.ts:242-267 | the `for` loop sets the variables, then the record is saved and both workers restart |
| Watch.DevWatcher.KillPorts | scripts/watch.ts:232-236 | the `forEach` over the ports appends one `killPort` per port |
| Watch.DevWatcher.OnInput | scripts/watch.ts:191-283 | the stdin handler's new state is the dispatcher's step on the trimmed line |
| Watch.DevWatcher.Dispatch | scripts/watch.ts:195-283 | the handler's new state for an already trimmed command: a synonym acts and returns, otherwise the `kill`, `var`, `debug` and `help` checks all run in turn |
| Watch.SynonymCommands | scripts/watch.ts:195-225 | a synonym matches exactly and returns at once: restart spawns both workers, server only the server, client only the client, quit exits with 0 |
| Watch.KillLine | scripts/watch.ts:228-237 | a `kill` line without `var` kills once per argument token, in order, and does nothing else |
| Watch.VarLine | scripts/watch.ts:240-267 | a `var` line without `kill` sets and saves the variables, never `NODE_ENV`, and restarts both workers |
| Watch.DebugLine | scripts/watch.ts:270-277 | `debug` flips the flag, sets `DEBUG` to `''` when it turns on and `'*'` when off, and restarts only the server |
| Watch.HelpAndUnknownLines | scripts/watch.ts:279-282 | `help` only shows the help text; a line matching nothing changes nothing |
| Watch.ExampleArguments | scripts/watch.ts:242 | the arguments of `var kill=1` are the single token `kill=1` |
| Watch.ExampleAssignment | scripts/watch.ts:248-257 | the token `kill=1` sets `kill` to `1` |
| Watch.ExampleBranches | scripts/watch.ts:228-267 | `var kill=1` first kills on the "port" `kill=1`, then runs the `var` branch on the same token |
| Watch.KillAndVarBothRun | scripts/watch.ts:228-267 | `kill` and `var` are substring tests that do not return: `var kill=1` runs both branches |
| Logger.Register | src/server/plugins/logger/index.ts:315-325 | registration succeeds exactly when every function option is absent or a function, `omit` and `pick` are absent or arrays, and not both are given; a failure carries the first failing assertion's message |
| Logger.OmitAndPickExclusive | src/server/plugins/logger/index.ts:325 | `omit` and `pick` together are refused, even as empty arrays |
| Logger.RegisterDefaultsFilters | src/server/plugins/logger/index.ts:327-336 | each per-field filter is its own option, else `filter`, else the identity |
| Logger.NoRouteSettingsKeepOptions | src/server/plugins/logger/index.ts:69-70 | a route without `plugins.logger` leaves the registered options unchanged |
| Logger.ClassifyAsWritten | src/server/plugins/logger/index.ts:110-119 | the code as written throws exactly when no error object is attached and the status is at least 400 |
| Logger.ClassifyAsWrittenThrowsOnPlain404 | src/server/plugins/logger/index.ts:110-116 | a 404 response without an error object makes the code as written throw |
| Logger.Classify | src/server/plugins/logger/index.ts:105-119 | `isError` holds exactly for a Boom error or a status of at least 400; then the status is the response's if truthy, else the Boom output code, and the stack is the error's |
| Logger.ClassifyAgreesWhereDefined | src/server/plugins/logger/index.ts:110-119 | where the code as written does not throw, the corrected classification agrees with it |
| Logger.ClientIp | src/server/plugins/logger/index.ts:121 | `ip` is `x-forwarded-for` when truthy, else the remote address |
| Logger.KeepLines | src/server/plugins/logger/index.ts:244 | no kept line mentions `node_modules` |
| Logger.KeepLinesComplete | src/server/plugins/logger/index.ts:242-246 | every line without `node_modules` is kept |
| Logger.KeepLinesSound | src/server/plugins/logger/index.ts:242-246 | every kept line is a line of the input |
| Logger.StripStackLines | src/server/plugins/logger/index.ts:242-246 | the lines of the stripped stack are exactly the kept lines, in order |
| Logger.StackField | src/server/plugins/logger/index.ts:123-125 | the stack is stripped and trimmed only when the option is on and the stack is non-empty |
| Logger.FullRecord | src/server/plugins/logger/index.ts:127-153 | the record before omission has exactly the 25 request keys |
| Logger.FullRecordAt | src/server/plugins/logger/index.ts:105-153 | the record's status, stack, data, `isError`, `ip` and `type` are the classification's and the address rule's |
| Logger.Omitted | src/server/plugins/logger/index.ts:155-158 | deleting the keys leaves exactly the keys not listed, values unchanged |
| Logger.PickedFields | src/server/plugins/logger/index.ts:164-166 | the picked object has exactly the listed keys, each with the record's value or `undefined` |
| Logger.OmitAndPick | src/server/plugins/logger/index.ts:155-173 | the two loops produce the omitted record, then the picked one when the pick list is non-empty |
| Logger.ExtractRequestData | src/server/plugins/logger/index.ts:67-174 | as written: it throws exactly when there is no error object and the status is at least 400; otherwise it returns the record built from the options with the route's settings laid over them |
| Logger.OmittedKeysAbsent | src/server/plugins/logger/index.ts:155-158 | every omitted key is absent; without a pick list every other key is kept |
| Logger.PickedKeysExactly | src/server/plugins/logger/index.ts:160-171 | with a non-empty pick list the record has exactly the picked keys plus `type` and `isError` |
| Logger.PickAfterOmitIsUndefined | src/server/plugins/logger/index.ts:155-171 | a key both omitted and picked is present with value `undefined` |
| Logger.RequestRecordFields | src/server/plugins/logger/index.ts:105-153 | without omit and pick, the record holds the classification, address and stack |
| Logger.StartRecord | src/server/plugins/logger/index.ts:354-361 | the `start` record is a server record saying the server started on its URI |
| Logger.StopRecord | src/server/plugins/logger/index.ts:363-371 | the `stop` record is a server record saying the server stopped |
| Logger.LogEventRecord | src/server/plugins/logger/index.ts:373-403 | a `log` event is of type `error` with the error's message when it carries one, else `log`; tags are joined by `, ` |
| Logger.RouteRecord | src/server/plugins/logger/index.ts:405-421 | a `route` record has exactly type, message, time, path, method and auth |
| Logger.TruthyOnly | src/server/plugins/logger/index.ts:205 | only truthy parts are kept |
| Logger.LoggableIgnoresFalsy | src/server/plugins/logger/index.ts:205 | a falsy part makes no difference, wherever it stands |
| Logger.LoggableTwo | src/server/plugins/logger/index.ts:205 | two truthy parts are joined by one space |
| Logger.ColoredText | src/server/plugins/logger/index.ts:206-213 | `colored` is `''` when its text is empty, else color, text and reset; the text is the arguments as one array, so comma-joined |
| Logger.ColoredExamples | src/server/plugins/logger/index.ts:206-213 | two words are comma-joined, and `undefined` alone colours nothing |
| MdMethod.MetadataStack.constructor | src/server/plugins/md-docs/method.ts:33 | the frontmatter stack starts empty |
| MdMethod.MetadataStack.Push | src/server/plugins/md-docs/method.ts:35-37 | the parser callback pushes the parsed frontmatter on top |
| MdMethod.MetadataStack.Pop | src/server/plugins/md-docs/method.ts:66 | `pop` returns the most recent entry and removes it, or `undefined` on an empty stack |
| MdMethod.MetadataStack.GenerateMarkdown | src/server/plugins/md-docs/method.ts:60-68 | a render returns the html and the top of the stack after the render's push, and leaves the stack as specified |
| MdMethod.StackAfterRender | src/server/plugins/md-docs/method.ts:60-67 | a render with frontmatter leaves the stack as it was; one without pops an older entry |
| MdMethod.MetadataOfRender | src/server/plugins/md-docs/method.ts:60-67 | a render returns its own frontmatter, or else the entry on top of the stack |
| MdMethod.RendersFromEmptyStack | src/server/plugins/md-docs/method.ts:31-67 | from an empty stack, each render returns exactly its own frontmatter |
| MdMethod.StaleMetadataIsReturned | src/server/plugins/md-docs/method.ts:66 | a document without frontmatter rendered over a non-empty stack gets the stale top entry |
| MdMethod.FirstHeading | src/server/plugins/md-docs/method.ts:74 | the leftmost position where a line starts with `# ` |
| MdMethod.LineEnd | src/server/plugins/md-docs/method.ts:74 | the end of a line is the next line terminator or the end of the text |
| MdMethod.H1 | src/server/plugins/md-docs/method.ts:74 | `h1` exists exactly when some line starts with `# `, and is the rest of the first such line, with no line terminator |
| MdMethod.NoHeadingOnlyToc | src/server/plugins/md-docs/method.ts:74-83 | without a heading line only `[[toc]]` and a blank line are prepended |
| MdMethod.HeadingMovedToTop | src/server/plugins/md-docs/method.ts:78-83 | with a heading, the result is the heading with the omit marker, the `[[toc]]` marker, then the text with the first occurrence of `# h1` removed and the rest unchanged |
| MdMethod.AddTocAtHeading | src/server/plugins/md-docs/method.ts:78-83 | the corrected rewrite puts the title on top, then `[[toc]]`, then the text with only the matched heading's `# h1` cut out; without a non-empty heading only `[[toc]]` is prepended |
| MdMethod.TitleStaysFirstHeading | src/server/plugins/md-docs/method.ts:74-83 | after either rewrite the first `# ` line is the title with the omit marker, so the table of contents leaves the title out |
| MdMethod.ExampleHeading | src/server/plugins/md-docs/method.ts:74 | in `## A` / `# A` the heading is on the second line |
| MdMethod.ExampleFirstOccurrence | src/server/plugins/md-docs/method.ts:80 | in `## A` / `# A` the first `# A` is inside the sub-heading |
| MdMethod.SubheadingBeforeTitle | src/server/plugins/md-docs/method.ts:70-84 | as written, `## A` / `# A` becomes `#` / `# A` below the table of contents; the corrected rewrite keeps `## A` |
| MdMethod.OptionsLifetimes | src/server/plugins/md-docs/method.ts:87-98 | the cache is in memory in the given segment, expires after 24 h, goes stale after 1 h, with the stated timeouts |
| MdMethod.MethodsUseOwnSegment | src/server/plugins/md-docs/method.ts:107-118 | each exported method caches in a segment named after it |
| MdDocs.MdNames | src/server/plugins/md-docs/index.ts:29 | every listed name ends in `.md` |
| MdDocs.Prefixed | src/server/plugins/md-docs/index.ts:35 | each subdirectory result is prefixed with `dir/` |
| MdDocs.FindMarkdownFiles | src/server/plugins/md-docs/index.ts:26-39 | discovery lists this level's `.md` names, then each directory's results under its name, in listing order; the older plugin's discovery (server/plugins/md-docs/index.ts:14-27) is the same algorithm |
| MdDocs.FilterMdNames | src/server/plugins/md-docs/index.ts:29 | the filter loop yields exactly the `.md` names in order |
| MdDocs.PushDirectories | src/server/plugins/md-docs/index.ts:32-36 | the `forEach` pushes each directory's results, prefixed, in order |
| MdDocs.FoundEndsWithMd | src/server/plugins/md-docs/index.ts:26-39 | every discovered path ends in `.md` |
| MdDocs.FoundBelowEndsWithMd | src/server/plugins/md-docs/index.ts:32-36 | every path found below a directory ends in `.md` |
| MdDocs.TopLevelFileFound | src/server/plugins/md-docs/index.ts:29 | every `.md` entry of the top level is listed |
| MdDocs.SubdirectoryFileFound | src/server/plugins/md-docs/index.ts:34-35 | every file a subdirectory finds is listed under the subdirectory's name |
| MdDocs.SlugWithoutFrontmatterSlug | src/server/plugins/md-docs/index.ts:139 | without a slug the route path is `/docs/` and the file path with its first `.md` cut out |
| MdDocs.SlugReplacesBasename | src/server/plugins/md-docs/index.ts:141-145 | with a slug, the first occurrence of the base name is replaced by it, under `/docs/` |
| MdDocs.UpdatedAt | src/server/plugins/md-docs/index.ts:147-148 | `updatedAt` is the later of the modification time and the publication date |
| MdDocs.Keywords | src/server/plugins/md-docs/index.ts:197 | keywords are the tags joined by `,`, or `''` without tags |
| MdDocs.Register | src/server/plugins/md-docs/index.ts:114-201 | the registration loop yields the specified routes or the first file's error |
| MdDocs.RoutesErrorSticks | src/server/plugins/md-docs/index.ts:116-131 | once a file fails, registration fails with that file's error |
| MdDocs.UnpublishedAddsNoRoute | src/server/plugins/md-docs/index.ts:135-137 | an unpublished file adds no route |
| MdDocs.BadFrontmatterAborts | src/server/plugins/md-docs/index.ts:123-131 | missing frontmatter or a schema error aborts registration with that error |
| MdDocs.RoutesArePublishedFiles | src/server/plugins/md-docs/index.ts:135-163 | there is one route per published file, each under `/docs/` |
| MdDocs.HeaderMap | src/server/plugins/md-docs/index.ts:180-183 | exactly the keys of the header entries are set |
| MdDocs.HeaderMapLastWins | src/server/plugins/md-docs/index.ts:178-184 | every header entry is set, with the value of its last occurrence |
| MdDocs.ApplyHeaders | src/server/plugins/md-docs/index.ts:178-184 | the header loop sets the entries over the response's headers |
| MdDocs.HandleSpec | src/server/plugins/md-docs/index.ts:164-187 | the handler answers not found exactly before publication, else the `docs` view with its layout and headers |
| MdDocs.Handle | src/server/plugins/md-docs/index.ts:164-187 | the handler method answers as specified |
| MdDocsLegacy.Register | server/plugins/md-docs/index.ts:57-104 | the registration loop yields the specified routes or the first file's error |
| MdDocsLegacy.RoutesErrorSticks | server/plugins/md-docs/index.ts:59-72 | once a file fails, registration fails with that file's error |
| MdDocsLegacy.EveryFileRouted | server/plugins/md-docs/index.ts:59-103 | every file gets a route, in order, at the path derived from its slug; there is no published filter |
| MdDocsLegacy.BadFrontmatterAborts | server/plugins/md-docs/index.ts:65-72 | missing frontmatter or a schema error aborts registration |
| MdDocsLegacy.Handle | server/plugins/md-docs/index.ts:85-102 | the response is the html as `text/html` with code 200 and every header entry applied |
| ViewHelpers.CollapseSlashes | src/views/helpers/index.ts:21 | joined paths have no doubled slash and keep their first character |
| ViewHelpers.CollapseKeepsNormalPaths | src/views/helpers/index.ts:21 | a path without doubled slashes is unchanged |
| ViewHelpers.NonEmpty | src/views/helpers/index.ts:21 | `path.join` drops empty segments |
| ViewHelpers.WithPathname | src/views/helpers/index.ts:21 | setting the pathname keeps origin, query and fragment, and the pathname starts with `/` |
| ViewHelpers.MakeUrlKeepsOrigin | src/views/helpers/index.ts:17-24 | `makeUrl` keeps the site's origin, query and fragment, and its path has no doubled slash |
| ViewHelpers.LinksAndAssets | src/views/helpers/index.ts:12-30 | external paths (exactly those starting with `http`) pass through `assetUrl` and `link`; others become site URLs, assets under `assets` |
| ViewHelpers.AssetPath | src/views/helpers/index.ts:27 | a relative asset path lands below `/assets/` on the site's origin |
| ViewHelpers.IsCurrentClass | src/views/helpers/index.ts:33-36 | the class is `current` exactly when the paths are equal, else `''` |
| ViewHelpers.MetaOrDefault | src/views/helpers/index.ts:39 | a non-empty value wins; an empty one gives the site metadata's entry |
| Vision.IndexEntries | src/server/plugins/vision/index.ts:82 | an array payload spreads into its indices |
| Vision.PayloadEntries | src/server/plugins/vision/index.ts:69-73 | an object payload spreads its keys; a non-object payload counts as `{}` |
| Vision.ReqDataPrecedence | src/server/plugins/vision/index.ts:78-83 | in `reqData`, payload keys override params, which override query keys |
| Vision.WatchHtml | src/server/plugins/vision/index.ts:87 | `watchHtml` is `''` when the method is absent or returns a falsy value, else its result |
| Vision.ContextPrecedence | src/server/plugins/vision/index.ts:75-88 | `request.app` overrides the caller's context, and `reqData` and `watchHtml` are always the computed ones |
| Vision.Layout | src/server/plugins/vision/index.ts:113 | the layout is the option's when truthy, else `'none'` |
| Vision.ViewOverrideSpec | src/server/plugins/vision/index.ts:93-123 | the view gets the requested page, the layout rule, the given options or `{}`, and content type `text/html; charset=utf-8` |
| Policies.Summaries | src/server/routes/policies.ts:8-12 | the summary list keeps slug, title and description of each policy, in order |
| Policies.CommitLinkOfContentsUrl | src/server/routes/policies.ts:29-30 | the commit link is the part before `/contents/`, then `/commits?path=`, then the encoded part after it |
| Policies.CommitLinkWithoutMarker | src/server/routes/policies.ts:29-30 | without `/contents/` the path encoded is `"undefined"` |
| Policies.PolicyRoutes | src/server/routes/policies.ts:14-57 | one route per policy, in order, at `/policies/<slug>` |
| Policies.AppSettingsPrecedence | src/server/routes/policies.ts:48-54 | a policy's metadata overrides its title, description and slug in the route settings |
| Policies.GetPolicies | src/server/routes/policies.ts:59-72 | the policy routes, then `/policies` as a temporary redirect to `/policies/coc` |
| Policies.MergedMetaPrecedence | src/server/routes/policies.ts:38-44 | the page metadata is the rendered frontmatter laid over title, description, slug and update time |
| Policies.PolicyHandler | src/server/routes/policies.ts:27-47 | the page renders the fetched text passed through `addTocToMarkdown` as written, with the merged metadata and the summary list |
| Policies.PolicyTitleFirst | src/server/routes/policies.ts:34 | a fetched text with a non-empty title starts its page with that title, the omit marker and the table of contents |
| Policies.PolicyWithoutTitle | src/server/routes/policies.ts:34 | a fetched text with no heading gets only the table-of-contents marker in front |
| RssFeed.ItemFor | src/server/plugins/rss-feed/index.ts:29-70 | a route yields no item exactly when its merged settings say `excludeFromFeed` |
| RssFeed.RouteSettingsOverlayMetadata | src/server/plugins/rss-feed/index.ts:22-41 | a route's own setting wins over the site metadata unless it is `null` or `undefined` |
| RssFeed.LinkAndImage | src/server/plugins/rss-feed/index.ts:47-57 | the link is the site URL with the route path; an `http` image is kept, a local one made a site URL |
| RssFeed.Items | src/server/plugins/rss-feed/index.ts:29-72 | there are at most as many items as routes |
| RssFeed.ExcludedRouteAddsNoItem | src/server/plugins/rss-feed/index.ts:43-45 | an excluded route contributes no item, wherever it stands |
| RssFeed.CompareAsWrittenInconsistent | src/server/plugins/rss-feed/index.ts:73-77 | the comparator as written calls an undated item equal to two dated items it does not call equal |
| RssFeed.InsertSorted | src/server/plugins/rss-feed/index.ts:73-77 | inserting an item into a newest-first list keeps it newest first |
| RssFeed.InsertPermutes | src/server/plugins/rss-feed/index.ts:73-77 | inserting adds exactly the item |
| RssFeed.InsertStable | src/server/plugins/rss-feed/index.ts:73-77 | inserting puts the item before the items that share its key |
| RssFeed.SortNewestFirstSpec | src/server/plugins/rss-feed/index.ts:73-77 | the sort is newest first, a permutation, and stable for equal keys |
| RssFeed.Feed | src/server/plugins/rss-feed/index.ts:79-96 | an RSS 2.0 channel with the site's title, description and URL, holding the items newest first; with undated items the source's order is implementation-defined (see Findings) and the model applies the corrected stable sort, undated last |
| RssFeed.RssRoute | src/server/plugins/rss-feed/index.ts:110-118 | `GET /rss.xml` serves the feed as `application/rss+xml` |
| HapiHelpers.DependencyInjectServer | src/server/helpers/hapi.ts:11-25 | same length and order; functions are applied to the server, other units pass through |
| HapiHelpers.DependencyInjectAppend | src/server/helpers/hapi.ts:13-24 | injecting a concatenation injects each part |
| HapiHelpers.DependencyInjectIdempotent | src/server/helpers/hapi.ts:17-22 | results that are not functions, re-wrapped as plain values, pass through a second injection unchanged |
| HapiHelpers.CheckItem | src/server/helpers/hapi.ts:28-32 | an item passes exactly when its name, method and options pass and it has no other key |
| HapiHelpers.CheckItemIsValidItem | src/server/helpers/hapi.ts:28-32 | an item passes exactly when it has a non-empty string name, a function and object or no options |
| HapiHelpers.Validate | src/server/helpers/hapi.ts:42-45 | the list is accepted exactly when every item passes; otherwise the error names the first failing item |
| HapiHelpers.OneBadItemRejectsAll | src/server/helpers/hapi.ts:42-45 | one invalid item anywhere rejects the whole list |
| HapiHelpers.Registrations | src/server/helpers/hapi.ts:49-52 | one registration per item, in order, with its name and method |
| HapiHelpers.ServerMethods.Add | src/server/helpers/hapi.ts:51 | `server.method` appends one registration |
| HapiHelpers.ServerMethods.RegisterMethods | src/server/helpers/hapi.ts:40-53 | nothing is registered unless every item is valid; then every item is registered in order |
| Misc.HoursAreSixtyMinutes | src/server/helpers/misc.ts:11-19 | a minute is 60000 ms, an hour 3600000 ms and sixty minutes |
| Misc.ConversionsAreLinear | src/server/helpers/misc.ts:11-19 | both conversions are additive and map 0 to 0 |
| ViteConfig.Lower | client/vite.config.ts:22 | ASCII lower case leaves other characters alone |
| ViteConfig.Directory | client/vite.config.ts:22-25 | a piece matching the image pattern gives `images`, any other piece itself |
| ViteConfig.OneDotNamesByExtension | client/vite.config.ts:19-28 | for `base.ext` the asset goes to `images/` for an image extension, else to `ext/` |
| ViteConfig.ManyDotNamesByLastPiece | client/vite.config.ts:21-27 | as written the directory comes from the second piece; the corrected rule uses the last |
| ViteConfig.NoDotGoesToUndefined | client/vite.config.ts:21-27 | a name without a dot goes to `undefined/` |
| ViteConfig.NoImageLetters | client/vite.config.ts:22 | a text without `g`, `t`, `b` or `c` never matches the image pattern |
| ViteConfig.UpperCaseImage | client/vite.config.ts:22 | the image test ignores case |
| ViteConfig.SecondPieceMisplacesDottedNames | client/vite.config.ts:21-27 | `logo.dark.svg` goes to `dark/` as written and to `images/` when corrected |

## Left out

- Processes, shells, timers and sockets are not run. The process table records what the code asks for: `beforeSpawn`, kill, launch, and the 250 ms `afterSpawn`/`afterClose`. The watcher records spawns, `killPort`, `publish`, `process.exit` and the help text.
- `portOccupied` binds a TCP port; its outcomes are an input function of the attempt number. `wait` and the log lines are not modelled.
- The 100 ms `debounce` is modelled as "the last label wins when the timer fires". Timing is not modelled.
- Reading and writing `.env`, `loadEnvFile`, `mkTmpDir`, the Eta templates and `fromScripts` are I/O. `saveEnv` is modelled on the file's text.
- `date`, `log` and `helpText` are clock and console text, as are the logger's `prettyPrint` and `jsonPrint`. `time` and `Date.now()` are parameters.
- markdown-it, its plugins and YAML parsing are foreign. A render is given its html and the frontmatter it pushed.
- Joi validation of the frontmatter is foreign. Each file carries the outcome: no frontmatter, a schema error, or the validated fields with the `published` and `layout` defaults. `registerMethods`' schema is modelled, because it decides what is registered.
- `...metadata.meta` spreads nothing, because the schema admits only an empty `meta` object. `author` is outside the schema and so is always absent. It appears in the RSS items only through route settings.
- The file tree is an abstract directory tree with `stat.mtime` per file; `readdirSync` and `statSync` are not modelled.
- `path.join` and `Path.join('/docs', …)` are modelled as `/`-joining with runs of slashes collapsed. `.` and `..` segments are not resolved.
- URLs are records whose text is the concatenation of their parts. Parsing and percent-encoding are not modelled.
- `encodeURIComponent` and the markdown renderer of the policy pages are parameters. The GitHub client (`ghContent`, `ghLastUpdated`) is not part of this model.
- Dates are integer millisecond timestamps. `new Date(v)` yields a date only for a number; `toUTCString` formatting and the XML serialisation of the feed are not modelled.
- RssFeed.ItemFor: a truthy non-string `image` would throw at `startsWith`. Here it is kept as it is, because the settings give images as strings.
- Numbers are integers: no `NaN`, no fractions. Where `NaN` matters, in the feed comparator, it is written out.
- `sha1` and `generateKey` are cryptographic hashing. `bind: { markdown }` is an object reference.
- Headers are applied in the order of their entries; the integer-like-keys-first order of `Object.entries` is not modelled. The logger's records are maps, so their key order is not modelled at all.
- ProcessTable.Supervisor.OnExit: every exit event is taken to set `exitCode`. An exit by signal, which leaves `exitCode` null so the process still counts as running and a later restart kills it again, is not modelled; `ProcessTable.ExitEventStep` has the same simplification.
- Watch.Guard: `APP_PORT` is read once from the given environment, while the source reads `process.env.APP_PORT` again on each attempt; a change of the environment during the guard is not modelled.
- HapiHelpers.DependencyInjectIdempotent: a resolved unit that is itself a function would be called again by a second injection; the lemma covers only results that are plain values.
- `Hoek.applyToDefaults` and `Hoek.merge` are modelled on flat objects; nested objects are not merged deeply.
- `server.method` also checks the method name's syntax and rejects duplicate names. Those checks are hapi's own and are not modelled. Nor is a non-array `methods` argument.
- The static Vite options and `visionConfig` are constants with no logic; their `debug` flag reads the environment. The plugin wiring is not modelled either: registering `MarkdownMethods` with `server.method`, the `onPostStart` hook and the `decorate` call.
- `colored` is only modelled generically, over any colour. The ten colour constants and the `types`/`icons` tables serve only `prettyPrint`.
- `Number(port)` is not modelled: a kill action records the argument token, and the command text is modelled for numeric ports.

## Findings

| source | as written | input that shows it | evidently intended | confidence | as-written member | corrected member |
|---|---|---|---|---|---|---|
| src/server/plugins/logger/index.ts:110-117 | the error branch is also entered for a status of at least 400 without an error object, then reads `err.stack` | a 404 response built without a Boom error: status 404, no `_error` | log the status with no stack, as `err?.stack` would | medium, not executed | Logger.ClassifyAsWrittenThrowsOnPlain404 | Logger.Classify |
| src/server/plugins/md-docs/method.ts:80 | removes the first occurrence of `# h1` anywhere in the text, not the heading line that was matched | `## A` followed by `# A` on the next line: the sub-heading is cut to `#` and the title stays | remove the matched heading line's own text | high, not executed | MdMethod.SubheadingBeforeTitle | MdMethod.AddTocAtHeading |
| src/server/plugins/rss-feed/index.ts:73-77 | `date_modified` is always a string ("Invalid Date" without `updatedAt`), so `?? '0'` never applies and an undated item compares as `NaN`, read as equal | items modified at 2 s and 1 s plus one route without `updatedAt`: the comparator is not consistent, so the order is implementation-defined | newest first, undated items last, ties in route order | medium, not executed | RssFeed.CompareAsWrittenInconsistent | RssFeed.SortNewestFirstSpec |
| client/vite.config.ts:21 | the directory comes from the second dot-separated piece of the asset name | `logo.dark.svg` goes to `dark/` | the directory comes from the extension, so the image goes to `images/` | medium, not executed | ViteConfig.SecondPieceMisplacesDottedNames | ViteConfig.ManyDotNamesByLastPiece |
