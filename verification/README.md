# The argvio Go SDK, modelled and proved

The argvio SDK is a telemetry library for command-line programs. A vendor's CLI creates one
`Client`, calls its `Record*` methods, and the client queues small jobs that a single background
worker turns into events, spans and data points. A consent tier (Anonymous, Basic, Full, OptIn)
decides which records are emitted and which attributes they carry. The `cobrasdk` package hooks the
client into a Cobra command tree: it wraps every command's run function and suggests a command when
the user mistypes one.

The project models five parts of that and proves what they are for.

* **Suggestions.** `EditDistance` holds the two-row program of `editDistance`, proved to compute the
  least cost of any edit script and to be a metric. `Suggestions` finds the nearest subcommand,
  `CommandTree` lists command paths, `CommandNames` turns paths into reported names, and
  `UnknownCommands` follows one mistyped word from the command line to the record that is sent.
* **The job queue.** `JobQueue` is a transition system over any number of goroutines inside
  `dispatch`, `Flush` and `Shutdown`, the worker and the two channels; every read or write another
  goroutine could come between is a step. `JobQueueSafety` carries the invariant and what follows
  from it, `JobQueueOutcomes` which steps of a run make a call end the way it does,
  `JobQueueLiveness` the measures that make the worker stop, `JobQueueLateFlush` the one wait that
  has no such measure.
* **Tiers.** `TaxonomySpec` describes every record in full, with one tier per attribute, and cuts it
  down at the end. `ClientCode` has the methods as they are written, branch by branch, on a class
  with the client's fields, each proved to do what the description says. `SentRecords` and
  `SentPoints` say the same call by call without the description: which literal attributes are sent
  under which conditions. `TierLaws`, `TierOrder` and `FullTier` compare whole runs, `WorkerRuns` has
  what the worker and the end of a client make of them. `VendorMetrics` has the counters, durations
  and values of vendors, `CounterSums` what counters add up to over a run. `ClientRuns` takes the
  class through whole runs, so that what is proved of runs holds of the code.
* **Identifiers.** `SessionIdRace`, `InstallIdRace` and `OnceGuards` interleave the atomic steps of
  the lazily made identifiers and of the once-only guards; `InstallId` has the persisted UUID over
  any number of process runs, `InstallRequests` what becomes of the request for it, `FirstReports`
  what becomes of a session start or a feature that a full queue refuses; `Utf8` has the truncation of features.
* **Run wrapping.** `RunWrap` has the closures put around run functions and the recursive rewrite of
  the tree, on commands that are objects with two fields.

A Go string is a `string` with one character per byte. Time, randomness, the environment, the
file system, the process's resource usage, what the vendor's callbacks answer and what the host's
commands do are parameters. `Shutdown` appears in two places: as the flag it sets (`ClientCode`) and
as a protocol (`JobQueue`).

Where the documentation and the code disagree the model follows the code:

* `docs/consent.md:32-45` says no command path is sent at Anonymous and lists `RecordExitCode`,
  `RecordLatency` and a session end. The functions do not exist, and command names are sent at every
  tier (`TierLaws.CommandNamesShowAtEveryTier`).
* The comment on `validInstallID` (`install.go:84-85`) says it accepts exactly what `newUUID`
  produces. It accepts every ID of that shape, whatever its version
  (`InstallId.UuidsAreTheVersion4Ids`, `InstallId.SomeAcceptedIdIsNoUuid`).

Properties one would like to have, and exactly when the code has them:

* The stored install ID survives later runs exactly when none of them fails to read it and still
  manages to write (`InstallId.StableExactlyWhen`, `InstallId.OneFailedReadChangesTheId`).
* Once a data point carries the install ID, a point added after it carries it exactly when its own
  call looked, at some step of the run, after the ID was published (`InstallIdRace.LaterPointsCarryExactlyWhen`,
  `InstallIdRace.SomeLaterPointLacksTheId`).
* Naming a command name again changes nothing exactly when the CLI's own name, as it would be
  reported (128 bytes at most), is free of white space or nothing but white space
  (`CommandNames.NamingIsIdempotentExactlyWhen`).
* A name is cut by bytes, a feature between characters: the name of a valid path is valid UTF-8
  exactly when the whole name fits or a character starts at the limit
  (`CommandNames.NameIsValidExactlyWhen`, `CommandNames.SomeNameIsCutInsideACharacter`).
* The session start and each feature are reported at most once, and exactly when the queue has room
  at the first call that reports them: what a full queue refuses is never tried again
  (`FirstReports.FirstCallDecides`).
* The nearest subcommand is found whenever there is a candidate, unless the limit is the largest
  integer: one more than that wraps around (`Suggestions.LargestLimitFindsNothing`).
* A wrapped command keeps its result exactly when, if it returns, it has a context and the vendor's
  classifier does not panic on its error (`RunWrap.ResultIsKeptExactlyWhen`). A command listed twice
  in the tree is wrapped twice, and recording it is asked for twice (`RunWrap.Instrument`).
* An accepted job, the sentinel of a `Flush` included, is certain to be run exactly when it is no
  longer queued, whatever Shutdown is doing: one whose context ends during its drain takes the worker
  away from everything still queued, even from what was accepted before Shutdown's own sentinel
  (`JobQueueLateFlush.CertainToRunExactlyWhen`, `JobQueueLateFlush.CancelledDrainLeavesTheFlush`).
  Only where that drain returned nil is everything accepted before its sentinel certain
  (`JobQueueLateFlush.CertainOnceDrained`). A sentinel sent after the worker has gone is lost
  (`JobQueueLateFlush.SentAfterTheExit`, `JobQueueLateFlush.FlushCanComeTooLate`).
* The first metric call asks the worker for the install ID, as the comment on `metricInstallAttrs`
  says, but through the queue like any job: the ID gets published exactly when the queue has room at
  that moment, unless another job loads it (`InstallRequests.AskedForIdIsPublishedExactlyWhen`).

## Model

| member | source | states |
|---|---|---|
| EditDistance.Compute | cobrasdk/cobrasdk.go:466-486 | the two rows end in the least cost of any script of insertions, deletions and substitutions turning one rune sequence into the other |
| EditDistance.DistanceIsLeastCost | cobrasdk/cobrasdk.go:466-486 | the recurrence is the least script cost and nothing else is: a script of that cost exists, none is cheaper |
| EditDistance.TableHoldsPrefixDistances | cobrasdk/cobrasdk.go:473-484 | row i, column j of the table is the distance of the first i and the first j runes |
| EditDistance.CheapestScript | cobrasdk/cobrasdk.go:466-486 | for any two sequences a script that turns one into the other at the cost of the distance |
| EditDistance.NoCheaperScript | cobrasdk/cobrasdk.go:466-486 | no script that turns one sequence into the other costs less than the distance |
| EditDistance.ZeroExactlyOnEqual | cobrasdk/cobrasdk.go:466-486 | the distance is zero exactly on equal sequences |
| EditDistance.Symmetric | cobrasdk/cobrasdk.go:466-486 | both directions are equally far |
| EditDistance.Triangle | cobrasdk/cobrasdk.go:466-486 | a detour is never shorter |
| EditDistance.LengthBounds | cobrasdk/cobrasdk.go:466-486 | the distance lies between the difference of the lengths and the longer length |
| CommandTree.CommandPaths | cobrasdk/cobrasdk.go:415-422 | the recursion with its loop lists the paths of the tree, a parent before its children |
| CommandTree.PathsAreTheCommands | cobrasdk/cobrasdk.go:415-422 | the list holds the path of every command of the tree and nothing else |
| Suggestions.NearestCommand | cobrasdk/cobrasdk.go:432-464 | the argmin loop answers with the first available subcommand of least score within the limit, or with nothing |
| Suggestions.ScoreOf | cobrasdk/cobrasdk.go:452-457 | the score is 0 for a declared alternative, else the edit distance of the lower-cased runes |
| Suggestions.NothingExactlyWhen | cobrasdk/cobrasdk.go:438-464 | nothing is suggested exactly when suggestions are off, the text is empty or over 128 bytes, the limit wraps, or no available subcommand is within it |
| Suggestions.AnswerIsDetermined | cobrasdk/cobrasdk.go:438-464 | the specification allows one answer only |
| Suggestions.AnswerIsTheNearest | cobrasdk/cobrasdk.go:438-464 | with any limit but the largest the answer is the nearest subcommand, and a nearest subcommand is the answer |
| Suggestions.SomeNearest | cobrasdk/cobrasdk.go:438-464 | if any subcommand qualifies there is a first one of least score |
| Suggestions.LargestLimitFindsNothing | cobrasdk/cobrasdk.go:442-448 | with the largest limit even a command typed exactly is not suggested |
| Suggestions.AnsweredExactlyWhen | cobrasdk/cobrasdk.go:424-464 | with suggestions on and 1 to 128 bytes typed, something is suggested exactly if some available subcommand is a declared alternative or at most 2 edits away, or as many as the vendor set if that is positive and not the largest integer; otherwise nothing is |
| Suggestions.AnswerIsClosestAndFirst | cobrasdk/cobrasdk.go:446-464 | the suggested subcommand is available, at least as close as every other available one, and closer than those before it |
| CommandNames.SpacedAndDottedAgree | taxonomy.go:180-201 | a path spelled with spaces and the CLI's name in front and the same path spelled with dots get the same name |
| CommandNames.NamingIsIdempotentExactlyWhen | taxonomy.go:180-201 | naming is idempotent on all paths exactly when the CLI's own (fallback, truncated) name is free of white space or blank |
| CommandNames.NameOfWords | taxonomy.go:185-201 | a path with a word in it is named without white space and never falls back; a blank one goes by the CLI's own name |
| CommandNames.FieldsOfJoin | taxonomy.go:186 | splitting words joined by spaces gives the words back |
| CommandNames.SpaceSeparates | taxonomy.go:186 | any of the six white-space bytes between two texts separates their words |
| CommandNames.NameOfAnyPath | taxonomy.go:180-201 | any path is named by its words with dots between them, cut to 128 bytes, without the first word exactly if that is the CLI's own name and not alone; without words by the CLI's own name or "root" |
| CommandNames.OnlyTheOwnNameIsDropped | taxonomy.go:180-201 | words joined by spaces keep their first one unless it is the CLI's own name in front of others |
| CommandNames.NameIsValidExactlyWhen | taxonomy.go:185-201 | from valid UTF-8 the reported name is valid exactly if the whole name has at most 128 bytes or a character starts at byte 128 |
| CommandNames.SomeNameIsCutInsideACharacter | taxonomy.go:197-199 | a valid path whose reported name ends inside a character |
| CommandNames.OnlyRegisteredNamesComeBack | taxonomy.go:568-595 | whatever is looked up, the answer is a registered name or nothing; a registered path is found exactly up to 512 bytes |
| CommandNames.RegisteredNameFindsItself | taxonomy.go:568-595 | every registered name looks itself up, whatever the CLI is called |
| UnknownCommands.RecordUnknown | cobrasdk/cobrasdk.go:396-413 | nearest subcommand, registration of all paths, session start and unknown command, as three calls on the client with the nearest path as suggestion |
| UnknownCommands.NearestIsSentExactlyWhen | cobrasdk/cobrasdk.go:399-413 | the nearest subcommand reaches the record, under its reported name, exactly at Basic and above and when its path has at most 512 bytes and is not blank (or goes by a registered name all the same) |
| UnknownCommands.NothingNearNothingSent | cobrasdk/cobrasdk.go:399-413 | where nothing is near enough the suggestion is empty and the record carries none |
| UnknownCommands.OnlyCommandsOfTheTreeAreSent | taxonomy.go:613-625 | a suggestion on the record is always the reported name of a command of the tree, and only at Basic and above |
| UnknownCommands.AttemptQueuesWhatFits | cobrasdk/cobrasdk.go:399-413 | for any room in the queue: the session start, if due, and one unknown-command record are queued in this order as far as they fit, the rest is counted as overflow; a closed client does nothing |
| Utf8.TruncateUtf8 | taxonomy.go:203-213 | the decreasing loop stops at the last rune start within the limit |
| Utf8.LongestValidPrefix | taxonomy.go:203-213 | on valid UTF-8 (section 4 of RFC 3629) the result is the longest valid prefix within the limit, at most three bytes short of it |
| Utf8.ValidIsTheGrammar | taxonomy.go:203-213 | text is valid exactly if it is a sequence of well-formed characters |
| Utf8.TruncatedIsIdempotent | taxonomy.go:203-213 | truncating twice is truncating once, for any bytes, so the feature compared is the feature sent |
| InstallId.NewUuid | install.go:105-115 | the bytes overwritten in place and formatted in five groups give the UUID of the random bytes |
| InstallId.SpellingAndParseAreInverse | install.go:84-115 | texts the check accepts and sequences of sixteen bytes correspond one to one |
| InstallId.SpelledInOrder | install.go:114 | the bytes 00, 11, 22 up to ff are spelled two digits each and in order, in groups of 8, 4, 4, 4 and 12 |
| InstallId.CheckId | install.go:84-103 | the loop accepts exactly 36 bytes with hyphens at four places and lower-case hexadecimal digits at the others |
| InstallId.HoldsExactlyWhen | install.go:66-70 | a file holds an ID exactly if it is that ID with any white space before and after it |
| InstallId.UuidsAreTheVersion4Ids | install.go:84-115 | the IDs newUUID can produce are exactly the accepted ones with the version and variant of section 5.4 of RFC 9562 |
| InstallId.SomeAcceptedIdIsNoUuid | install.go:84-103 | the check also accepts an ID that newUUID never produces |
| InstallId.UuidKeeps122Bits | install.go:107-115 | two draws give the same ID exactly when they agree outside the six overwritten bits |
| InstallId.IdFile.LoadOrCreate | install.go:58-82 | one run against the file, returns the stored ID if it can read a valid one, else a new one if it can draw and persist it, else nothing; a failed write leaves whatever it leaves |
| InstallId.ReturnedIdIsStored | install.go:62-82 | a non-empty result is what the file then holds, the stored one in an unchanged file or the UUID just drawn on a line of its own; an empty one means no path, or nothing readable and nothing persisted |
| InstallId.StableWhileReadable | install.go:62-82 | while no run replaces it the file never changes and every successful read returns the ID without writing |
| InstallId.NeverComesBack | install.go:62-82 | once lost, an ID that is not drawn again is never returned |
| InstallId.StableExactlyWhen | install.go:62-82 | over any sequence of runs a later successful read returns the ID exactly when no run in between failed to read and went on to write |
| InstallId.OneFailedReadChangesTheId | install.go:62-82 | two concrete runs, no outside writer, and the ID changes |
| ClientCode.Client.Gate | taxonomy.go:229-241 | open and allowed, or one drop counted (none on a closed client) |
| ClientCode.Client.Dispatch | client.go:238-251 | the job joins the queue if there is room, else it is counted; nothing happens on a closed client |
| ClientCode.Client.EnsureSessionId | taxonomy.go:261-277 | one ID from the first call on, none below Basic |
| ClientCode.Client.AddIdentity | taxonomy.go:279-304 | session and install ID are added, the install ID only at Basic and above, and loading publishes it |
| ClientCode.Client.VendorSessionAttrs | session_state.go:88-121 | nothing but the two facts: a count exactly if its callback returned, the nearest number of 0..1000; a state exactly if its callback returned a known one |
| ClientCode.Client.RecordSessionStart | taxonomy.go:367-401 | the job it queues emits the full session description cut down to the tier, once per client |
| ClientCode.Client.RecordCommandInvocation | taxonomy.go:416-431 | the command becomes current and the event is the full description cut down to the tier |
| ClientCode.Client.RecordCommand | taxonomy.go:463-519 | span, two data points and event are the full descriptions cut down to the tier, with the duration clamped at zero |
| ClientCode.Client.RecordFeatureActivated | taxonomy.go:540-560 | gate, truncation, de-duplication and event do what the description says |
| ClientCode.Client.SetKnownCommands | taxonomy.go:568-580 | the known set becomes the names of the non-blank paths |
| ClientCode.Client.RecordUnknownCommand | taxonomy.go:613-625 | the event carries at most the known name of the suggestion, at Basic and above |
| ClientCode.Client.RecordHelpFlagUsage | taxonomy.go:629-638 | the event carries the command name at every tier |
| ClientCode.Client.RecordError | taxonomy.go:674-704 | data point at every tier, event from Basic on; unknown categories and ill-formed reasons are replaced or left out |
| ClientCode.Client.RecordErrorDetail | taxonomy.go:727-776 | message and stack are emitted at OptIn and nowhere else; no error, no record |
| SentRecords.SessionStartSends | taxonomy.go:367-401 | whole next state, in literal attributes: one event, once, with install method and tier at Anonymous, and from Basic on both IDs, positive binary size, startup from 0 on, environment, clamped count and known authentication state |
| SentRecords.InvocationSends | taxonomy.go:416-431 | whole next state: the name becomes current and one event carries it, with non-empty flag names and IDs from Basic on |
| SentRecords.CommandSends | taxonomy.go:463-519 | whole next state: a span that failed exactly if the exit code is not 0, one invocation, the latency in microseconds and an event; whole milliseconds on span and event, 0 of everything for a negative duration; usage on the span alone |
| SentRecords.FeatureSends | taxonomy.go:540-560 | whole next state: below Basic one drop; else the first use of a feature, cut to 64 bytes, is one event under the current command |
| SentRecords.SetKnownDoes | taxonomy.go:568-580 | the registered names are exactly those of the non-blank paths, and nothing else changes |
| SentRecords.UnknownSends | taxonomy.go:613-625 | whole next state: one event, with the suggestion exactly from Basic on, up to 512 bytes and if its name is registered |
| SentRecords.HelpSends | taxonomy.go:629-638 | whole next state: one event with the command's name |
| SentRecords.ErrorSends | taxonomy.go:674-704 | whole next state: one error counted and from Basic on one event; one of the eight categories or "unknown", and the reason exactly if it is an identifier, from Basic on |
| SentRecords.DetailSends | taxonomy.go:727-776 | whole next state: an event with message and stack at OptIn, one drop below it, nothing without an error |
| ClientCode.Client.MetricInstallId | taxonomy.go:306-326 | the published ID or none, and one request to load it from the first call that finds none |
| ClientCode.Client.HandleAttrs | dims.go:63-85 | the list built for a handle has no repeated key and is the described attribute set |
| ClientCode.Client.NamedAttrs | counter.go:54-80 | the list built for a named counter or duration has no repeated key and is the described attribute set; a bad label spoils the call after the install ID was asked for |
| ClientCode.Client.RecordCounter | counter.go:54-80 | exactly the accepted calls add a data point, at once and not through the queue |
| ClientCode.Client.RecordDuration | measure.go:61-87 | the same for durations |
| ClientCode.Client.CounterAdd | dims.go:121-131 | the same for counters with dimensions |
| ClientCode.Client.DurationRecord | dims.go:157-167 | the same for durations with dimensions |
| ClientCode.Client.ValueRecord | value.go:88-99 | the same for values, which must be finite and not negative |
| ClientCode.Client.WinShutdown | client.go:361-363 | after the flag is set every call is dropped; only the first caller wins |
| ClientCode.Client.RunNextJob | client.go:253-268 | the worker takes the oldest job, and what it emits is what was described when the job was queued |
| VendorMetrics.NewHandle | dims.go:41-61 | a handle has one key per declared dimension, in order, and is valid exactly with an identifier for a name and at most three distinct identifiers as dimensions |
| VendorMetrics.NewValue | value.go:66-82 | a value's handle is valid exactly if it also has a known unit; no unit is a count |
| VendorMetrics.CheckIdentifier | taxonomy.go:130-148 | the loop accepts exactly the identifiers |
| SentPoints.IdentifierGrammar | taxonomy.go:130-148 | an identifier is one lower-case letter or digit followed by at most 63 of those or of dot, underscore and hyphen |
| SentPoints.CountNamedAdds | counter.go:54-80 | whole next state: exactly a positive count under an identifier with no label or an identifier for one adds a point, with the name and the label under the counter's keys; the install ID is asked for before the label is looked at |
| SentPoints.TimeNamedAdds | measure.go:61-87 | the same for a positive duration, under the measure's keys |
| SentPoints.CountByHandleAdds | dims.go:63-131 | whole next state: exactly a positive count through a valid handle, with as many identifiers as keys, adds a point with the name under the counter's key and each value under the key at its position |
| SentPoints.TimeByHandleAdds | dims.go:63-167 | the same for a positive duration, under the measure's key |
| SentPoints.RecordValueAdds | value.go:84-99 | the same for a finite value that is not negative, under the value's key, with its unit |
| VendorMetrics.AppendDims | dims.go:76-83 | the loop pairs each key with the value at its own position, or rejects the call |
| VendorMetrics.SeriesNeverMerge | dims.go:63-85 | two accepted calls on one instrument share an attribute set exactly when name, label, unit, value per dimension, command and attached install ID agree; an ID that could not be persisted attaches nothing, like one not loaded yet |
| VendorMetrics.CounterInstrument.Add | counter.go:79 | one running sum per attribute set, each the total of what was added under it |
| VendorMetrics.SumsAddUp | counter.go:54-80 | what the instrument holds, over all its series, is everything that was added to it |
| VendorMetrics.SeriesTotalsAddUp | counter.go:54-80 | over any list of all series, each once, the totals add up to everything that was added |
| CounterSums.SeriesSumsAreWhatWasAccepted | counter.go:54-80 | after any run, at any tier and with any drops, an instrument given the counts among the data points holds, over all series, the sum of the accepted calls |
| CounterSums.EachSeriesSumsItsCalls | dims.go:63-131 | after any run the instrument holds, for one attribute set, the sum of the accepted calls with that name, label, dimension values, command and attached install ID, and of no others |
| CounterSums.RunContributes | dims.go:117-131 | from any state on, a run adds to the counters exactly what its accepted calls say before the client is closed |
| ClientRuns.Play | taxonomy.go:367-776 | a new client taken through any sequence of calls, jobs and the shutdown flag ends where the description of whole runs says, and its counter instrument holds the sum of the accepted counter calls |
| ClientRuns.DoStep | client.go:238-268 | one call, one job or the flag, whichever method it takes, does to the fields what one step of a run says |
| InstallRequests.PublishedExactlyWhen | taxonomy.go:279-326 | in any run the install ID is published, or about to be, exactly if it was at the start or some job that loads it found room in the queue |
| InstallRequests.AskedForIdIsPublishedExactlyWhen | taxonomy.go:306-326 | an ID that only metric calls ask for gets published exactly when the queue had room when the first of them asked; no later one asks again |
| InstallRequests.OnlyTheLoadedIdIsPublished | taxonomy.go:295-326 | in any run nothing but the loaded ID is ever published, and only by a job that loads it |
| FirstReports.ReportedExactlyWhen | taxonomy.go:367-560 | in any run a session start or a feature is emitted or queued exactly if it was at the start or the first call to report it found room in an open client's queue |
| FirstReports.FirstCallDecides | taxonomy.go:367-560 | whatever follows the first call, it is reported exactly if the queue had room at that call |
| Signals.VendorKeysHaveDistinctNames | dims.go:11-35 | no dimension a vendor declares shares a wire name with a built-in attribute of a data point, or with another dimension |
| TierLaws.AnonymousShowsNothingMore | taxonomy.go:367-776 | at Anonymous two runs on one schedule that differ in flags, usage, categories, reasons, features, suggestions, known commands, vendor callbacks, environment, random bytes, install file and error detail emit, queue and drop the same |
| TierLaws.DetailNeverShows | taxonomy.go:707-776 | below OptIn error messages and stacks, or their absence, change nothing but a local counter |
| TierLaws.CommandNamesShowAtEveryTier | taxonomy.go:413-431 | every record of an invocation, a completion, a help view or an error carries the command's name, at Anonymous too |
| TierOrder.ScheduleDoesNotMatter | client.go:253-268 | without overflow, what is emitted and queued is what the calls say, in order, wherever the worker's steps fall |
| TierOrder.RaisingTheTierOnlyAdds | tier.go:84-89 | the same calls at a higher tier, on any other schedule without overflow: every record is there again, in order, with at least the same attributes and values but for the tier's own |
| TierOrder.RaisingTheTierOnlyAddsToPoints | taxonomy.go:306-326 | data points correspond one to one, and each keeps its attributes at the higher tier, given the same install-ID timing; overflow makes no difference |
| TierOrder.PointsFollowCalls | taxonomy.go:306-326 | the schedule reaches data points only through the install ID each call finds |
| WorkerRuns.WorkerEmitsInOrder | client.go:253-268 | as many steps of the worker run as many queued jobs, the oldest first: all their records are emitted in order, the install ID is published if one of them loads it, nothing else changes |
| WorkerRuns.NothingAfterClose | client.go:232-236 | once the flag is set, whatever is called in any run adds no record, data point or drop and leaves no mark; only what was queued before is still emitted |
| FullTier.FullIsBasicBarTheTier | tier.go:15-41 | on any schedule, overflow included, Full and Basic emit, queue and drop the same once the tier attribute is erased |
| SessionIdRace.AllCallsAgree | taxonomy.go:261-277 | in every interleaving of load, compare-and-swap and reload all calls, now and later, return one ID; below Basic they return none |
| SessionIdRace.ReturnedIdWasDrawn | taxonomy.go:261-277 | at Basic and above the ID a call returns was drawn by some step of the run |
| InstallIdRace.LoadedOnceAttachedOnlyThen | taxonomy.go:295-326 | in every interleaving the ID is loaded and asked for at most once, points carry the loaded ID or none, and below Basic nothing happens |
| InstallIdRace.PublishedIsWhatWasLoaded | taxonomy.go:295-304 | in every interleaving the published ID is what the only load of the run returned, and it is published once the guard is over |
| InstallIdRace.EveryCallIsServed | taxonomy.go:295-326 | at Basic and above a job that is over leaves the ID loaded and published; a metric call that is over found a published ID at some step or the ID has been asked for |
| InstallIdRace.LaterCallsCarryTheId | taxonomy.go:306-326 | once a point carries the ID, so does the point of every call that has not looked by then |
| InstallIdRace.LaterPointsCarryExactlyWhen | taxonomy.go:306-326 | a point added after one with the ID has it exactly when the step of the run in which its call looked comes after the publication |
| InstallIdRace.SomeLaterPointLacksTheId | taxonomy.go:306-326 | a run in which a later point lacks the ID |
| OnceGuards.OnceInEveryInterleaving | taxonomy.go:367-560 | in every interleaving at most one session start, callbacks at most once and never below Basic, no feature twice |
| OnceGuards.ServedInTheEnd | taxonomy.go:367-560 | when all calls have returned, the session start was dispatched exactly if some call asked, the callbacks ran exactly if that was at Basic or above, and the features dispatched are exactly the non-empty ones asked for there |
| JobQueueSafety.EveryRunKeepsInv | client.go:232-388 | the invariant of queue, shutdown and threads holds after any run of any goroutines |
| JobQueueSafety.EveryJobInOnePlace | client.go:242-268 | a job whose dispatch passed enabled() is in exactly one place (about to be sent, counted as overflow, queued, running, finished), any other in none |
| JobQueueSafety.OrderedAndBounded | client.go:242-268 | the queue never exceeds its capacity, the two counters count drops and panics, no job starts twice, jobs start in the order accepted |
| JobQueueSafety.DrainWaitsForEverythingBefore | client.go:323-349 | when any drain has returned nil, everything accepted before its sentinel has finished, panics included |
| JobQueueSafety.ShutdownLosesOnlyLateSends | client.go:351-388 | when Shutdown's drain returned nil, a job still queued was accepted after the sentinel, by a call that had passed enabled() before the compare-and-swap |
| JobQueueSafety.OneCleanShutdown | client.go:356-388 | over any number of Shutdown callers stopCh is closed at most once and the providers are shut down at most once, after the worker has exited |
| JobQueueSafety.NothingRunsAfterExit | client.go:253-263 | in every run from the worker's exit on it stays away, no job finishes or panics any more, and none leaves the queue |
| JobQueueOutcomes.MarkedExactlyWhen | client.go:232-388 | over any run, nine things can be said of a call (got past the check, was refused, accepted, dropped, its drain cancelled or ended with nil, won the compare-and-swap, its job finished, panicked) exactly if some step, in the circumstances the code asks for, made it so |
| JobQueueOutcomes.DroppedExactlyWhenFull | client.go:242-251 | a job is dropped exactly if its send, at some step of the run, found as many jobs queued as the queue holds |
| JobQueueOutcomes.SentWithRoomIsAccepted | client.go:242-251 | a send that finds room makes its job the newest of the queue, accepted for good and never counted as dropped |
| JobQueueOutcomes.CountersCountSteps | client.go:242-268 | over any run the queue receives the jobs in the order of their successful sends, and the counters grow by the sends that found it full and by the jobs that panicked |
| JobQueueOutcomes.OutcomesTellWhatHappened | client.go:293-388 | how a call that is over ended: dispatch accepted, dropped or refused; Flush and Shutdown refused, or past a drain that ended or was cancelled; a Shutdown past the compare-and-swap leaves the worker gone and the providers shut down once |
| JobQueueLiveness.FewJobsAfterShutdown | client.go:253-388 | after the compare-and-swap the worker starts at most as many jobs as are queued or past enabled(), in any schedule |
| JobQueueLiveness.WorkerExits | client.go:253-388 | with stopCh closed the worker always has a step until it exits, and exits within its measure |
| JobQueueLiveness.FairWorkerExits | client.go:253-388 | in every infinite execution that is weakly fair to the worker, once stopCh is closed it exits for good and wg.Wait returns in every thread that waits |
| JobQueueLiveness.DispatchNeverWaits | client.go:238-251 | whatever the other goroutines do, dispatch can take its next step at once and returns after at most two |
| JobQueueLateFlush.CertainToRunExactlyWhen | client.go:253-388 | at any moment an accepted job is run in every continuation in which the worker exits exactly if it is no longer queued; what is queued once a Shutdown has won had passed enabled() before the compare-and-swap |
| JobQueueLateFlush.CertainOnceDrained | client.go:351-388 | where Shutdown's drain returned nil, everything accepted before its sentinel is certain to run, and what is still queued was accepted after it |
| JobQueueLateFlush.CancelledDrainLeavesTheFlush | client.go:366-374 | a run in which Shutdown's context ends during its drain and a Flush accepted before Shutdown's sentinel never returns nil |
| JobQueueLateFlush.WaitingFlushExactlyWhen | client.go:293-349 | a waiting Flush keeps being able to return nil, in every continuation, exactly if its sentinel is no longer queued |
| JobQueueLateFlush.SentAfterTheExit | client.go:253-349 | a drain whose sentinel has not been sent when the worker exits never returns nil |
| JobQueueLateFlush.FlushCanComeTooLate | client.go:293-349 | a run in which a Flush queues its sentinel for a worker that has gone |
| RunWrap.Invoke | cobrasdk/cobrasdk.go:495-545 | calling a wrapped function, closure by closure, ends and asks for records as the defunctionalised meaning of the closures says |
| RunWrap.RecordPanic | cobrasdk/cobrasdk.go:521-545 | on a panic: exit code 2, an internal error and a shutdown, or nothing if capture is off or there is no context |
| RunWrap.RecordOutcome | cobrasdk/cobrasdk.go:624-636 | the completion is recorded before the classifier is asked; a missing context stops both |
| RunWrap.WrapRunE | cobrasdk/cobrasdk.go:495-519 | one of the two fields is wrapped, the error-returning one first; a command with neither is left alone |
| RunWrap.WrapRunTree | cobrasdk/cobrasdk.go:488-493 | every command is wrapped once more for every time the tree lists it, no other command changes |
| RunWrap.Instrument | cobrasdk/cobrasdk.go:282-284 | after instrumenting a tree every runnable command ends as before and asks for as many completions more as the tree lists it, none if it is not listed; the fields hold what they held, wrapped as often |
| RunWrap.ResultIsKeptExactlyWhen | cobrasdk/cobrasdk.go:495-545 | a wrapped command ends as before exactly when, if it returns, it has a context and the classifier answers; panics and exits always come through |
| RunWrap.RecordedOnceExactlyWhen | cobrasdk/cobrasdk.go:495-636 | the wrapper adds one completion with code 0, 1 or 2, and one error exactly for a code that is not 0, after everything the command did, exactly under the conditions named |
| RunWrap.WrappedTimesRecords | cobrasdk/cobrasdk.go:488-519 | wrapped n times a command still ends as before, and the client is asked n times to record it |
| RunWrap.RecordedOncePerWrapping | cobrasdk/cobrasdk.go:488-519 | wrapped n times a command that does not exit asks for n completions more than before |
| RunWrap.NothingToWrap | cobrasdk/cobrasdk.go:495-519 | commands with nothing to run never change; a command with only the plain field ends up with only the error-returning one |
| RunWrap.FreshCommandDoes | cobrasdk/cobrasdk.go:495-545 | a host command wrapped once, case by case: its outcome and every record, with exit codes 0, 1 and 2, the classifier's answer, and nothing recorded without a context |

## Left out

- Exporters, providers, URLs, gRPC and HTTP (`otlp.go`, `resource.go`): a sink of records and a map from attribute set to sum stand for them, and ForceFlush and provider shutdown are single steps.
- Client construction, options, timeouts and consent resolution (`New`, `options.go`, `consent*.go`): a client starts with a valid tier, a CLI name, an install method and a queue size; nil and disabled clients, which do nothing, are not modelled apart from the closed one.
- CI, shell, terminal, startup and resource-usage detection: what they find is an input of session start and command completion.
- Wall-clock time, histogram buckets and floating point beyond finite, negative and not-a-number: amounts are kept as given.
- Wrap-around of counter sums and the exporter's limit on the number of series: a sum is an unbounded integer.
- Unicode case folding, rune decoding and equal-fold: parameters of `Suggestions`, so its results hold for any such functions; `strings.Fields` and `TrimSpace` split at the six ASCII white-space bytes only.
- Severity, timestamps and the context of records: they do not depend on the tier.
- Jobs that dispatch further jobs, and concurrent processes on one install file: no job of the client dispatches, and `InstallId` runs processes one after the other.
- Concurrent calls in `ClientCode`: its methods run one at a time; the interleavings that matter are in `JobQueue`, `SessionIdRace`, `InstallIdRace` and `OnceGuards`.
- The client behind the wrappers: `RunWrap` lists what a client is asked to record, in order; what the client makes of it is in `ClientCode`, and a client that was shut down ignores it.
- Flag visiting, help and pre-run hooks, parsing of the framework's error message, `RecordExit`, `RecordExitError`: straight-line callers of what is modelled.
- The root command's display name and the framework's own choice of which run field it calls: a root goes by its name, and the error-returning field is preferred.
- JobQueueLiveness.FairWorkerExits: assumes a scheduler that is fair to the worker and jobs that end; Go promises neither.
- TierOrder.RaisingTheTierOnlyAdds: assumes that no job is dropped, since at a higher tier more jobs compete for the queue.
- InstallId.StableExactlyWhen: assumes that no later run draws the very same ID again.
