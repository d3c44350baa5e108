# A verified model of the self-hosted browser VPN

A browser extension sends Chrome's traffic through an HTTPS proxy that its owner
runs. An installer or a container manager sets the server up, obtains its
certificate and prints the connection key that the extension imports. This project
models the parts of that system in which several things act at once or two programs
must agree, and proves what they keep:

- **The service worker** (`Browser`, `Tasks`, `Worker`). One transition system holds
  Chrome's storage and settings, the queue of exclusive tasks, and the unqueued
  handlers. Its steps are the stretches of code between two awaits. Any call may
  fail, other extensions may act at any step, and the worker may die between two
  steps. `Coupling`, `Handlers`, `Answers`, `ErrorLog`, `Consistency`, `Validity`,
  `Ranks` and `Settling` prove what holds in every run. `Effects`, `Undisturbed` and
  `Verdicts` give each task, the auth handler and TEST_IP in closed form: what they come
  to, from every profile, when nobody interferes. `Evidence`, `Confirmed` and
  `TestedRoute` say what a command that returns, one that throws, and an address that is
  returned have had Chrome confirm, in every run with failing calls and interference.
  `Scripts` writes the tasks as the source does, one
  statement after another, and proves that each makes exactly the calls of its state
  machine; `ServiceWorker` is the class of the module variables, whose methods
  change them in place as the transition system says. `Messages` ties the popup's
  messages to the tasks.
- **Certificates.** `Publication` is the container manager over a file system in
  which every operation may fail and every recorded state is one a crash can leave
  behind. `Reload` is the proxy's reloader, which reads the two files at two instants
  of a timeline that the manager moves on.
- **The proxy.** `Targets` splits authorities, `SelfAddresses` is the concurrently
  learned set of the proxy's own addresses, `Dialing` goes from a request to the
  addresses dialled, `Tunnel` is the two-goroutine tunnel, `Headers` the hop-by-hop
  headers.
- **Formats.** `Routing` (exclusions, the PAC decision), `Hosts` (the valid hosts written
  out), `Base64`, `Json`,
  `ConnectionKey` (printer and parser of the key), `ProxyAuth` (credentials file and
  Basic header), `PublicIp` (the two definitions of a public address). `Text` and
  `Wrappers` hold shared pieces.

## What the code does not do

Six findings are stated and proved instead of being assumed away.

- Boot does not always leave a PAC with its WebRTC restriction. It fails exactly when
  its last PAC clear has no effect while the PAC still stands without a restriction
  (`Coupling.BootCouples`), and every such profile has a run that ends so
  (`Coupling.BootMayGiveUp`).
- A proxy error can be dropped without a newer one and without any command: before it
  is written, by the worker's death while it is queued or being recorded, by a rejected
  storage call of its own, or because a reconciliation, boot's included, finds a damaged
  or missing configuration stored as enabled and switches it off, so that the record task
  finds the connection off. The last needs no death and no failing call:
  `ErrorLog.BootLosesError` gives a run for every such profile. It never happens over a
  configuration that was in use when the error arrived. `ErrorLog.WaitingDroppedExactly`
  gives the exact condition of a step, `ErrorLog.LossExplained` the complete list of
  causes.
- A valid host may contain the Kelvin sign, which lower-cases to `k`. Such a host is
  written in six characters, so a long one with long credentials makes a key that the
  parser refuses (`ConnectionKey.KelvinHostDoesNotImport`); the exact limit is in
  `ConnectionKey.KeyRoundTrip`, and every ASCII host is below it.
- The server also accepts a credentials file that ends in LF, CR, LF
  (`ProxyAuth.ReadsOneLine`).
- Python's address registry may list the documentation block of RFC 9637, which the
  proxy's guard takes for public (`PublicIp.SameOnIPv6`). The difference is on the
  safe side: the installer is the stricter one.
- When the live check cannot be started at all, the manager raises the operating
  system's error without rolling back (`Publication.Manager.RunCycle`, the case of an
  `OsError` of phase `Health`).

## Model

| member | source | states |
|---|---|---|
| Coupling.OwnSettingIsOurs | extension/background.js:67-69 | a regular setting seen as controlled by this extension is its own preference |
| Coupling.ReconcileKeepsKnowledge | extension/background.js:171-189 | reconciliation clears WebRTC only after a PAC clear has completed |
| Coupling.ApplyKeepsKnowledge | extension/background.js:190-235 | the restoring branch sets the PAC only after it has seen the restriction in place |
| Coupling.ConnectKeepsKnowledge | extension/background.js:255-307 | connect, its failure path included, keeps both orders |
| Coupling.SaveKeepsKnowledge | extension/background.js:326-385 | replacing exclusions and rolling back keep both orders |
| Coupling.PerformStep | extension/background.js:53-61 | no single call breaks a PAC's coupling to its restriction, whatever Chrome does with it |
| Coupling.ShapeStep | extension/background.js:22-34 | configurationChanging is set exactly while a task runs; boot runs only beside tasks that record proxy errors |
| Coupling.BystandersKeepTasks | extension/background.js:449-572 | listeners and handlers touch neither preferences nor running tasks nor the configuration epoch |
| Coupling.InvStep | extension/background.js:171-385 | every step of every interleaving keeps each task's knowledge and, once there, "own PAC implies own restriction" |
| Coupling.InvAlways | extension/background.js:22-572 | in every run from a fresh worker on any profile, rejected calls, takeovers and deaths included, each task knows what it relies on |
| Coupling.CoupledForever | extension/background.js:53-61 | once the PAC implies the restriction it does at every later step of the run |
| Coupling.BootCouples | extension/background.js:171-243 | from any persisted profile boot ends coupled if and only if its last PAC clear did not fail with an unrestricted PAC in place |
| Coupling.BootMayGiveUp | extension/background.js:240-243 | for every uncoupled profile there is a run in which boot ends with it unchanged |
| Handlers.EpochsCount | extension/background.js:22-28 | each epoch counts exactly its kind of step: task begins, setting events, proxy errors |
| Handlers.QuietStep | extension/background.js:22-34 | with no boot and no task running, a step that begins none changes neither storage nor preferences |
| Handlers.TestInvStep | extension/background.js:387-447 | a TEST_IP has at most its own clearing task queued or running, with the epochs it sampled |
| Handlers.HandlersOkStep | extension/background.js:470-505 | what an auth handler has read is still stored while its sampled epoch stands |
| Answers.AllInvAlways | extension/background.js:387-524 | the invariants of tasks, tests and auth handlers hold in every state of every run |
| Answers.EpochsGrow | extension/background.js:16-18 | epochs never fall, and an epoch that is the same at two states saw none of its events between them |
| Answers.IdleRun | extension/background.js:22-34 | between two states of one configuration epoch, the first idle, storage and own preferences do not change |
| Answers.SamplesStayInRun | extension/background.js:387-391 | a handler keeps the epochs it sampled until it ends |
| Answers.CredentialsAreCurrent | extension/background.js:482-515 | at the instant credentials are returned, storage is enabled and holds exactly their connection, the challenge is a Basic 407 of that endpoint, the two replies the handler holds are the expected ones, and the request had none |
| Answers.CredentialsUndisturbed | extension/background.js:479-515 | from the challenge to its credentials no task ran or began, no setting event was delivered and storage did not change |
| Answers.SnapshotWasTaken | extension/background.js:499-504 | an expected snapshot that a handler holds was taken from Chrome at an earlier step of its own, in the context the handler has |
| Answers.TabFitsAlways | extension/background.js:486-497 | the context of a challenge from the worker itself is the worker's own; a challenge of unknown origin gets none |
| Answers.ContextWasLearnt | extension/background.js:487-491 | the context of a challenge in a tab is what chrome.tabs.get answered this handler |
| Answers.EveryGrantUndisturbed | extension/background.js:479-515 | every step that returns credentials has its challenge earlier in the same life of the worker, undisturbed since; in between the handler learnt its context, and Chrome's proxy in that context was this configuration's at one step and WebRTC restricted at one step |
| Answers.CredentialsOncePerRequest | extension/background.js:506-524 | a request gets credentials twice only if it was done, or the worker died, in between |
| Answers.RaisedOnce | extension/background.js:416-423 | an epoch one higher was raised by exactly one task, the last one begun |
| Answers.AddressUndisturbed | extension/background.js:387-441 | if TEST_IP returns an address, then since its first guard only its own clearing task ran, no setting event was delivered and no proxy error arrived |
| Answers.EveryAddressUndisturbed | extension/background.js:387-441 | every step that returns an address has its first guard earlier in the same life of the worker; since then only its own clearing task ran, no setting event was delivered and no proxy error arrived |
| TestedRoute.SeesRoute | extension/background.js:100-160 | a status that lets TEST_IP go on has read, at steps of this test, an enabled usable configuration without a possibly direct error, its PAC in force and WebRTC restricted, in regular and in incognito windows |
| TestedRoute.AddressWasRouted | extension/background.js:387-441 | every step that returns an address has, in the same life of the worker, seen that whole route before its request and again after it, and no exclusion it read before the request covers api.ipify.org, by labels |
| Effects.ConnectEnds | extension/background.js:255-307 | with succeeding calls CONNECT refuses and drops the PAC, or stores enabled and sets both preferences for what is stored, or ends disabled with neither: which one, exactly, for every profile and surroundings |
| Effects.ReconcileEnds | extension/background.js:171-238 | what a reconciliation makes of every profile: switched off, routed by the stored configuration, or without a PAC, with the flags it leaves |
| Effects.DisconnectEnds | extension/background.js:309-324 | disconnect leaves neither preference, nothing enabled and no error; forget leaves no configuration either |
| Effects.ImportEnds | extension/background.js:245-253 | an imported key leaves exactly its connection, no exclusions, nothing enabled and neither preference |
| Effects.SaveEnds | extension/background.js:326-385 | SAVE_EXCLUSIONS refuses, only stores, routes by the new list, or routes by the old one again: exactly when each |
| Effects.RecordEnds | extension/background.js:506-535 | a proxy error is stored exactly while enabled, a refused authentication always |
| Effects.FollowEnds | extension/background.js:537-567 | the reaction to a proxy change drops the PAC once when it fails in incognito windows, and restores it exactly when that takeover has ended everywhere |
| Effects.StatusIs | extension/background.js:100-160 | the reads of status come to "all traffic is routed" and the recorded error of the profile |
| Effects.ClearEnds | extension/background.js:416-437 | the clearing task clears exactly the error the test has seen, only if nothing has happened since and all is routed |
| Effects.TaskEnds | extension/background.js:171-572 | every task, from every profile and flags, comes to its closed form, returning or throwing as it says |
| Undisturbed.MessageEnds | extension/background.js:449-468 | what each message of the popup comes to, its raw key or text included |
| Undisturbed.TaskComesTo | extension/background.js:22-34 | the same in runs, whatever listeners and handlers do meanwhile |
| Undisturbed.ConnectReturnsExactly | extension/background.js:255-307 | a CONNECT nobody interferes with returns if and only if everything can be routed, and then everything is |
| Undisturbed.SaveStoresOrKeeps | extension/background.js:326-385 | such a SAVE_EXCLUSIONS that returns has stored the new list and routes by it; one that throws keeps the old list, and a PAC it has set is for that |
| Undisturbed.BootRoutes | extension/background.js:171-243 | such a boot routes by the stored configuration if it is on and can be, and else leaves no PAC |
| Verdicts.ChallengeAnswered | extension/background.js:470-516 | a challenge nobody interferes with is ignored, cancelled or answered with the stored credentials: exactly when each |
| Verdicts.RejectionRefuses | extension/background.js:482-516 | a rejected call ends in no answer before the challenge has matched and in a cancellation after it |
| Verdicts.TestAnswered | extension/background.js:387-441 | a TEST_IP nobody interferes with throws exactly if not all is routed, the error may be direct, the IP service is excluded or its request fails |
| Verdicts.ClearingSettles | extension/background.js:417-436 | the test goes on exactly if its clearing task returned |
| Verdicts.ClearedReturns | extension/background.js:438-441 | and then returns exactly if no epoch has moved and no task runs |
| Evidence.CheckWasSeen | extension/background.js:190-375 | in every run, each check a task has passed was answered by Chrome at an earlier step of that same task |
| Evidence.SetsAfterChecks | extension/background.js:190-372 | every PAC that is set has, earlier in its task, WebRTC seen restricted and the proxy controllable, in regular and in incognito windows |
| Confirmed.FactsAlways | extension/background.js:171-385 | what is stored and which preferences stand at each point of each command, in every run |
| Confirmed.ConnectConfirmed | extension/background.js:255-307 | a CONNECT that returns, in any run: the configuration it read is stored and enabled, its PAC and the restriction are set, and Chrome showed it the PAC in force and then WebRTC restricted, in regular and in incognito windows |
| Confirmed.ConnectThrowsClean | extension/background.js:295-302 | one that throws after a write ends disabled with neither preference, unless its last call was a rejected storage call, clear or report; one that throws before wrote nothing |
| Confirmed.SaveConfirmed | extension/background.js:326-385 | a SAVE_EXCLUSIONS that returns has stored the new list; if enabled, the PAC for it is set and was confirmed likewise |
| Confirmed.SaveThrowsKept | extension/background.js:361-380 | one that throws on an enabled connection keeps the list it read, and after a rollback the old PAC is confirmed again after the old list was stored, or there is none, or its clear was rejected; the same exception for its last call |
| Confirmed.ReconcileConfirmed | extension/background.js:171-238 | a reconciliation that returns leaves no PAC, or the restriction and a PAC of the configuration it read, confirmed by Chrome |
| Confirmed.RtcChangeConfirmed | extension/background.js:569-572 | the reaction to a WebRTC change never throws over a setting it cannot read or set, and ends like that |
| Confirmed.OffWhenReturned | extension/background.js:245-324 | a DISCONNECT, FORGET or IMPORT_KEY that returns, in any run, leaves neither preference and nothing enabled; FORGET leaves no configuration, IMPORT_KEY exactly its connection without exclusions |
| ErrorLog.InOrderStep | extension/background.js:526-535 | queued error records stay in order of arrival and the newest is never behind |
| ErrorLog.InOrderAlways | extension/background.js:22-34 | that order holds in every state of every run |
| ErrorLog.HeldStep | extension/background.js:506-535 | a step drops an error that waits or is on record for one of six reasons only, deaths of the worker included |
| ErrorLog.WaitingDroppedExactly | extension/background.js:526-535 | an error that waits and is not on record is dropped exactly by a death, by its own read or write being rejected, or by finding the connection disabled |
| ErrorLog.RecordsArrived | extension/background.js:506-535 | every queued or running record is of an error that arrived in the same life of the worker |
| ErrorLog.PassedInRun | extension/background.js:22-34 | once an error has been written or given up, only records of later ones are still to be written |
| ErrorLog.OverwriterIsLater | extension/background.js:526-535 | what is written over a recorded error is the record of an error that arrived later |
| ErrorLog.EnabledUntilDisabled | extension/background.js:526-531 | an error that arrived while enabled finds the connection enabled unless a write has disabled it since, across deaths and later errors |
| ErrorLog.ReconcilesStep | extension/background.js:171-189 | a reconciliation about to switch off has no usable configuration stored at that very step |
| ErrorLog.DisabledForAReason | extension/background.js:171-324 | every write of enabled: false is one of CONNECT, DISCONNECT, FORGET or IMPORT_KEY, or of a reconciliation over no usable configuration |
| ErrorLog.UsableUntilCommand | extension/background.js:171-324 | a usable configuration stays usable, and reconciliations leave it on, until a command switches it off or removes it |
| ErrorLog.LossExplained | extension/background.js:171-324 | in every run, with deaths and any number of other errors, a step that drops an error is a CONNECT, DISCONNECT, FORGET or IMPORT_KEY reset, a TEST_IP clearing exactly that record, the write of a later error, or, while it still waits, a death, a rejected call of its own, or its finding the connection off: off on arrival, or switched off since by a command or a reconciliation over no usable configuration, by a command if a usable one was on |
| ErrorLog.BootLosesError | extension/background.js:171-183 | for every profile with an enabled but unusable configuration there is a run without command, death or failing call that loses an error |
| ErrorLog.ErrorsAreKept | extension/background.js:506-535 | at every later state of every run an error waits in the worker it came to or is on record, in this worker or a later one, or an earlier step dropped it and has one of those explanations |
| ErrorLog.ErrorsAreNotForgotten | extension/background.js:526-535 | once the queue has drained an error is on record or such a step dropped it |
| ErrorLog.DirectErrorsOutlastTests | extension/background.js:153-153 | a TEST_IP never clears an error that reported a possible direct connection |
| Consistency.ConsistentStep | extension/background.js:171-385 | every step keeps storage and PAC in the relation of its program point, the rollback of exclusions included |
| Consistency.ConsistentAlways | extension/background.js:171-385 | if storage writes and PAC clears succeed, then between tasks an own PAC means: enabled, a connection stored, and the PAC is that of the stored connection and exclusions; boot establishes it from any profile |
| Validity.MessagesAreValid | extension/background.js:245-246 | what a message hands to its task has passed the parser of keys or of exclusions |
| Validity.ValidStep | extension/background.js:171-385 | every step keeps storage, tasks, replies and handlers to values that validate |
| Validity.ValidAlways | extension/background.js:36-47 | in every run whose commands are the popup's messages all of them validate at each state |
| Validity.SetsWhatBuilds | extension/core.mjs:99-126 | every PAC that any step of any run sets is the one buildProxyConfig builds, without throwing, from a validated connection and normal exclusions |
| Validity.GrantsWritable | extension/background.js:513-514 | credentials handed out in any run have no control character and no colon in the name (section 2 of RFC 7617) |
| Ranks.RankFalls | extension/background.js:171-572 | whatever the replies, no task, boot included, comes back to a program point |
| Ranks.HandlerFalls | extension/background.js:387-515 | the same for the handlers, with room for the one task a last stretch may queue |
| Settling.ReachableIsFrozen | extension/background.js:22-34 | every reachable state, with any number of events still to come, may be the start of what follows |
| Settling.LeftStep | extension/background.js:537-572 | with outside ownership frozen and no failures no step adds to the work of boot, commands, handlers and stale reactions, and one that takes none of it lowers the measure of the reactions |
| Settling.ReactionsDieOut | extension/background.js:537-572 | from any state on, whatever is running or queued in it, all tasks and handlers and the tasks triggered by the worker's own changes end within a number of steps fixed at the start, in any order of delivery |
| Settling.ComesToRest | extension/background.js:537-572 | the same from any state of any run of the worker |
| Settling.StopsDrained | extension/background.js:22-34 | it stops only with boot ended, every event delivered, both queues empty and no handler waiting |
| Settling.AtMostOneRestore | extension/background.js:550-561 | at most one restore happens, unless boot, a command, a handler or a reaction with stale replies acts in between |
| Scripts.AnswersAreFitting | extension/background.js:36-65 | every answer Chrome gives in the transition system is a reply the scripts below are proved for |
| Scripts.Script.AwaitReply | extension/background.js:36-65 | one awaited call is the one the machine waits for, and the machine goes on with its reply |
| Scripts.Script.CallsAreDetermined | extension/background.js:171-385 | for given answers a task has exactly one complete list of calls, so the contracts below fix what each method asks of Chrome |
| Scripts.Script.ReconcileAtStartup | extension/background.js:171-238 | for all replies, exactly the calls and flag changes of the reconciliation machine, returning or throwing as it does |
| Scripts.Script.Apply | extension/background.js:191-232 | the same for its try block |
| Scripts.Script.EnsureRestriction | extension/background.js:192-205 | the same for putting the restriction in place |
| Scripts.Script.ConfirmApplied | extension/background.js:221-231 | the same for the last checks of the try block |
| Scripts.Script.SwitchOff | extension/background.js:179-189 | the same for a configuration that is off, absent or damaged |
| Scripts.Script.Boot | extension/background.js:240-243 | the same for boot with its catch |
| Scripts.Script.ImportKey | extension/background.js:245-253 | the same for importKey |
| Scripts.Script.Connect | extension/background.js:255-307 | the same for connect; what it achieves is Confirmed.ConnectConfirmed and Undisturbed.ConnectReturnsExactly |
| Scripts.Script.ConnectTo | extension/background.js:260-307 | the same for connect once it has read its configuration |
| Scripts.Script.PrepareConnection | extension/background.js:260-275 | the same for its refusals |
| Scripts.Script.ApplyConnection | extension/background.js:277-295 | the same for its try block, in the order of its calls |
| Scripts.Script.UndoConnection | extension/background.js:296-302 | the same for its catch |
| Scripts.Script.Disconnect | extension/background.js:309-317 | the same for disconnect, alone or inside forget |
| Scripts.Script.Forget | extension/background.js:319-324 | the same for forget |
| Scripts.Script.SaveExclusions | extension/background.js:326-385 | the same for saveExclusions |
| Scripts.Script.MaySave | extension/background.js:331-346 | the same for its guards |
| Scripts.Script.SaveEnabled | extension/background.js:331-384 | the same on an enabled connection |
| Scripts.Script.ApplyExclusions | extension/background.js:349-360 | the same for its try block |
| Scripts.Script.UndoExclusions | extension/background.js:361-380 | the same for its catch |
| Scripts.Script.MayRestore | extension/background.js:364-368 | the same for the condition under which it is put back |
| Scripts.Script.ConfirmRestored | extension/background.js:370-374 | the same for the checks after it |
| Scripts.Script.RestoreExclusions | extension/background.js:363-374 | the same for putting the previous PAC back |
| Scripts.Script.ProxyChanged | extension/background.js:537-567 | the same for the proxy settings listener with its finally |
| Scripts.Script.FollowProxyChange | extension/background.js:540-562 | the same for its try block |
| Scripts.Script.Restore | extension/background.js:557-560 | the same for the restore |
| Scripts.Script.RtcChanged | extension/background.js:569-572 | the same for the WebRTC listener |
| Scripts.Script.RecordProxyError | extension/background.js:528-534 | the same for recording a proxy error |
| Scripts.Script.RecordAuthError | extension/background.js:508-511 | the same for recording a refused authentication |
| Scripts.Script.ReadStatus | extension/background.js:100-160 | the same for status inside the clearing task |
| Scripts.Script.ClearTestedError | extension/background.js:416-437 | the same for the task that clears a tested error, with the epochs at each reply |
| ServiceWorker.ServiceWorker.constructor | extension/background.js:11-20 | a fresh worker is the start state over every profile |
| ServiceWorker.ServiceWorker.TakeNext | extension/background.js:23-27 | beginning a task changes the module variables as the transition system does |
| ServiceWorker.ServiceWorker.Continue | extension/background.js:26-31 | so does each stretch of a task, with the finally at its end |
| ServiceWorker.ServiceWorker.OnProxyError | extension/background.js:526-535 | so does a proxy error |
| ServiceWorker.ServiceWorker.OnProxySettingChange | extension/background.js:537-539 | so does a proxy setting event |
| ServiceWorker.ServiceWorker.OnRtcSettingChange | extension/background.js:569-572 | so does a WebRTC setting event |
| ServiceWorker.ServiceWorker.BootThen | extension/background.js:539-539 | a reaction is queued only after boot |
| ServiceWorker.ServiceWorker.ClearAuthAttempt | extension/background.js:522-524 | a finished request is forgotten |
| ServiceWorker.ServiceWorker.AnswerChallenge | extension/background.js:499-515 | the guard, the retry and the answer of an authentication challenge |
| ServiceWorker.ServiceWorker.FinishTest | extension/background.js:412-441 | the end of TEST_IP: throw, queue the clearing, or return |
| Messages.StoredConnectionReadsBack | extension/background.js:40-43 | a connection that IMPORT_KEY stores validates again to itself |
| Messages.StoredExclusionsReadBack | extension/background.js:45-47 | exclusions that SAVE_EXCLUSIONS stores normalise again to themselves |
| Messages.BuildsTheConfiguration | extension/core.mjs:99-126 | buildProxyConfig does not throw on what the readers return and builds the PAC of exactly that configuration |
| Routing.LowerHostIsValid | extension/core.mjs:5-17 | a host that passes the check passes it in lower case too; which hosts pass is Hosts.QuadsExactly and Hosts.NamesExactly |
| Routing.ValidHostChars | extension/core.mjs:5-17 | a valid host in lower case has only letters, digits, dots and hyphens |
| Text.TrimExactly | extension/core.mjs:6-6 | trimming takes off exactly the white space at both ends, for each of the three notions of white space in use |
| Text.LowersAlphabet | extension/core.mjs:9-9 | lower-casing maps A to Z to a to z |
| Hosts.OctetExactly | extension/core.mjs:11-11 | an octet is the decimal text, without leading zeros, of a number below 256 |
| Hosts.QuadIsValid | extension/core.mjs:10-12 | every dotted quad of numbers below 256 is a valid host |
| Hosts.QuadsExactly | extension/core.mjs:10-15 | a host of digits and dots alone is valid if and only if it is such a quad |
| Hosts.NamesExactly | extension/core.mjs:13-17 | any other host is valid if and only if it has 3 to 253 characters, no white space at its ends, and at least two labels of 1 to 63 letters, digits and inner hyphens in lower case |
| Hosts.PrintableExactly | extension/core.mjs:31-36 | which printable names and passwords the validation lets through, by length and characters |
| Hosts.QuadKeyImports | extension/core.mjs:47-72 | the exported key of an installation on any IPv4 address imports as exactly what was exported |
| Hosts.NameKeyImports | extension/core.mjs:47-72 | so does the key of an installation on a name |
| Routing.ReadsItems | extension/core.mjs:79-80 | the items of a text are the words between white space, commas and semicolons, and each names its domain without one leading wildcard |
| Routing.NormalizeExclusions | extension/core.mjs:74-92 | the loop computes the fold over the items of the text |
| Routing.NormalizedIsNormal | extension/core.mjs:74-92 | an accepted text yields at most 100 valid lower-case hosts, none twice: exactly those it names |
| Routing.AcceptsExactly | extension/core.mjs:80-89 | a text is accepted if and only if every domain it names is a valid host and they are at most 100 different ones |
| Routing.NormalizingTwice | extension/background.js:45-47 | joining an accepted list by newlines and normalising again gives the same list |
| Routing.FindProxyForURL | extension/core.mjs:106-115 | the generated function returns DIRECT exactly when isExcludedHost holds and the one proxy otherwise, for every host string |
| Routing.ExcludedByLabels | extension/core.mjs:94-97 | a host is excluded exactly when the labels of some exclusion are a suffix of its labels |
| Routing.SpellingsAgree | extension/core.mjs:94-97 | upper case and a final dot of the host make no difference |
| Base64.UrlRoundTrip | installer/export-key.py:31-34 | unpadded base64url decodes to the bytes it encodes, with the exact length (section 5 of RFC 4648) |
| Base64.StdRoundTrip | server/proxy.go:90-93 | padded base64 decodes to the bytes it encodes, with the exact length (section 4 of RFC 4648) |
| Base64.SameBits | installer/export-key.py:31-33 | every group of four letters has the bits of its three bytes in order, the last group padded with zero bits (section 4 of RFC 4648) |
| Base64.AlphabetsAreStandard | installer/export-key.py:31-33 | the two alphabets are those of tables 1 and 2 of RFC 4648 |
| Json.DumpsRoundTrip | installer/export-key.py:24-33 | parsing the compact dump of an object of texts and natural numbers gives that object, for every text |
| Json.EscapesAreStandard | installer/export-key.py:32-32 | escapes are written as section 7 of RFC 8259 has them, surrogate pairs included |
| ConnectionKey.ExporterReads | installer/export-key.py:23-23 | the exporter reads user and password from a generated credentials file |
| ConnectionKey.PayloadText | installer/export-key.py:24-33 | the payload of members without quotes and backslashes, written out |
| ConnectionKey.PayloadRoundTrip | extension/core.mjs:19-45 | the payload validates to the connection with the host in lower case |
| ConnectionKey.KeyRoundTrip | extension/core.mjs:47-72 | for every valid host and port and printable credentials the exported key parses back to the connection if and only if the payload has at most 3066 characters |
| ConnectionKey.AsciiHostsFit | extension/core.mjs:1-3 | with an ASCII host it always has |
| ConnectionKey.KelvinHostDoesNotImport | extension/core.mjs:51-54 | a valid host and credentials whose exported key does not parse back |
| ProxyAuth.ReadsOneLine | server/main.go:104-116 | a credentials file is accepted if and only if it is one user:password line with one of four endings |
| ProxyAuth.HeaderExactly | server/proxy.go:85-95 | a header yields a credential if and only if it is Basic in any case, a space and at most 1024 characters of base64 of it, white space around these aside |
| ProxyAuth.HeaderRoundTrip | server/proxy.go:85-95 | the Basic header of user:password decodes to its bytes if they are at most 768 and is refused otherwise |
| ProxyAuth.ServerAcceptsExportedCredentials | server/proxy.go:85-95 | a server that read the installer's file accepts the header of the exported credentials if and only if they have at most 768 bytes |
| ProxyAuth.OnlyConfiguredCredentials | server/proxy.go:94-94 | with a collision-free tag a header is authorised exactly when it carries the configured bytes |
| PublicIp.SameOnIPv4 | installer/public_ip.py:26-44 | is_public_ip and publicAddress are equal on all of IPv4; on which addresses they hold is PublicIp.PublicIPv4Exactly |
| PublicIp.SameOnIPv6 | server/proxy.go:129-160 | on IPv6 they differ on the documentation block alone, if Python lists it |
| PublicIp.InstallerRefinesProxy | installer/public_ip.py:26-44 | is_public_ip implies publicAddress for IPv4, IPv4-mapped and IPv6 values, with the exact differences |
| PublicIp.Net4ByPrefix | server/proxy.go:129-142 | an IPv4 address is in a network if and only if it has the network's first bits, for every prefix length in use |
| PublicIp.Net6ByPrefix | server/proxy.go:129-144 | the same for IPv6 |
| PublicIp.PublicIPv4Exactly | server/proxy.go:146-160 | which IPv4 addresses are public, for every address by its four octets |
| PublicIp.PublicIPv6Exactly | server/proxy.go:146-160 | which IPv6 addresses are, by numeric bounds; a mapped one is judged as its IPv4 address and one with a zone never is |
| PublicIp.DocumentationExactly | installer/public_ip.py:40-41 | the block on which the two sides may differ is 3fff::/20 |
| PublicIp.NormalizeAddresses | deploy/manager.py:108-121 | the loop succeeds if and only if all entries are public and no two are the same address, and yields their canonical texts in order |
| PublicIp.NormalizedAgain | deploy/manager.py:179-182 | stored addresses normalise to themselves |
| PublicIp.SelfAddressFlags.Set | server/main.go:37-44 | the flag appends exactly the public addresses without a zone, unmapped |
| PublicIp.PassToProxy | server/main.go:52-53 | every stored address is a valid --self-address and the proxy ends up with exactly the addresses written |
| Publication.ScratchStep | deploy/manager.py:343-348 | changes of staging entries keep `current` and all versions |
| Publication.RenameStep | deploy/manager.py:353-353 | renaming a complete staging directory to a new version keeps all others |
| Publication.SwitchStep | deploy/manager.py:305-307 | renaming a link over `current` keeps it naming a complete version |
| Publication.Manager.CurrentTarget | deploy/manager.py:283-298 | absent, trusted with its target, or refused, exactly |
| Publication.Manager.SwitchToVersion | deploy/manager.py:301-310 | `current` is at every step the old one or the new link; a normal return means the new one; no leftover link |
| Publication.Manager.MatchingPublishedPair | deploy/manager.py:313-319 | whether the published bytes are the lineage's, unless a read raises; on a reliable disk exactly when it answers |
| Publication.Manager.WritePair | deploy/manager.py:349-352 | both files written and validated, nothing but the staging entry touched; a pair that cannot be read back is reported like one that does not match |
| Publication.Manager.RenameStaging | deploy/manager.py:353-354 | the version appears complete in one step or not at all |
| Publication.Manager.RemoveStaging | deploy/manager.py:356-358 | removal touches only the staging entry, wherever it stops |
| Publication.Manager.PublishVersion | deploy/manager.py:343-358 | a normal return has switched `current` to the new version, which holds the validated pair, and kept the others; an invalid pair, and a pair reported as such, never moves `current` |
| Publication.Manager.PublishCertificate | deploy/manager.py:330-359 | a lineage that is published already leaves the directory and its history untouched and returns no version; any other becomes the new version that `current` names, and the version current before is returned; without a lineage nothing is touched; a rejected pair leaves `current` untouched at every step; on a reliable disk exactly which calls succeed |
| Publication.Manager.RollBack | deploy/manager.py:409-412 | switching back keeps every recorded state good |
| Publication.Manager.RunCycle | deploy/manager.py:389-414 | a cycle that fails before it has a lineage, and one whose lineage is published already, touches nothing, whatever the live check says; a changed lineage is published as the new version, and a failed live check puts the previous one back; every outcome is consistent with what is published, and on a reliable disk it is the first failure of the cycle |
| Publication.KeptThroughout | deploy/manager.py:353-353 | a published version is the same in every later state |
| Publication.Live | deploy/manager.py:453-465 | one life of the manager on any good directory, any cycles, stopped at any step: `current` is absent or names a complete validated pair at every step and versions never change |
| Publication.LiveAgain | deploy/manager.py:453-465 | the same for any number of lives, each started on what the one before left behind |
| Reload.CertificateReloader.Reload | server/tls_reload.go:56-76 | a reload takes over exactly a pair that both reads found and that loads together, and otherwise changes nothing |
| Reload.CertificateReloader.GetCertificate | server/tls_reload.go:36-53 | a handshake serves a certificate with its own key that was current at some read, never older than before; a failure is logged exactly when its text is not that of the failure before |
| Reload.NewCertificateReloader | server/tls_reload.go:28-34 | there is a reloader exactly when the first pair loads |
| Reload.SameFile | server/tls_reload.go:57-64 | after the last switch a read finds the current version's file whenever it happens |
| Reload.FindsLastSwitch | server/tls_reload.go:56-76 | a reload after the last switch of a sound history finds exactly the current version's pair |
| Reload.HandshakeAfterLastSwitch | server/tls_reload.go:36-76 | every handshake that starts after the last switch of a sound history serves exactly the current version's pair |
| Targets.SplitExactly | server/proxy.go:107-113 | SplitHostPort undoes exactly host:port and [host]:port |
| Targets.AllowedPortIsDecimal | server/proxy.go:97-97 | an accepted port is an optional plus sign and digits of one of the five numbers |
| Targets.AllowedPortsExactly | server/proxy.go:97-97 | without a sign and leading zeros the accepted ports are 80, 443, 8080, 8443 and 9443 |
| Targets.SplitTargetExactly | server/proxy.go:99-125 | what splitTarget accepts, for requests with and without a default port |
| SelfAddresses.LearnedGrows | server/proxy.go:202-214 | in any interleaving the learned set never shrinks |
| SelfAddresses.RetriesAfterTenSeconds | server/proxy.go:194-214 | after a failed lookup the known addresses serve for ten seconds; otherwise every call looks up again, a cancelled request changing nothing |
| SelfAddresses.ProgressStep | server/proxy.go:186-245 | no step of any goroutine takes from what a call will end up with |
| SelfAddresses.GuardCovers | server/proxy.go:186-245 | in any interleaving a guard has everything learned before its call began, the configured and the local addresses, and a public one if a self host is set |
| SelfAddresses.MappedFormsAgree | server/proxy.go:281-284 | membership is the same for IPv4 and IPv4-mapped forms |
| SelfAddresses.ProxyServer.LearnResult | server/proxy.go:202-214 | the lock region after a lookup: the learned set and the retry time |
| SelfAddresses.ProxyServer.HasPublic | server/proxy.go:226-232 | the loop finds whether any known address is public |
| SelfAddresses.ProxyServer.SelfAddresses | server/proxy.go:186-245 | one call between other goroutines' regions: a guard covers what was known before, what a due lookup answered, the configured and the local addresses |
| Dialing.SelectedAreSafe | server/proxy.go:269-274 | of an answer exactly the public addresses outside the guard remain |
| Dialing.SelectedExactly | server/proxy.go:269-274 | an address is a target exactly when it comes from an allowed one of the answer |
| Dialing.SelectedInOrder | server/proxy.go:269-274 | the targets keep the order of the answer |
| Dialing.NamesSelfExactly | server/proxy.go:252-254 | the proxy's own name is recognised with and without a final dot on either side, up to case |
| Dialing.DestinationsExactly | server/proxy.go:247-279 | a request may dial exactly the allowed addresses of its host, unless the host is the proxy itself or there is no guard |
| Dialing.DestinationsAreSafe | server/proxy.go:247-279 | for every authority and every DNS answer, what may be dialled is a public unmapped literal outside the guard with an allowed port, and there is a guard |
| Dialing.FindDestinations | server/proxy.go:247-279 | the method computes those destinations under the guard of its own call |
| Dialing.DialDestinations | server/proxy.go:286-299 | addresses are dialled in order; the first to connect before a cancellation is the connection |
| Dialing.Serve | server/proxy.go:58-83 | a request dials only if authorised and only safe addresses, never the proxy itself; what it dials are, in order, the destinations of its own authority, with port 80 as the default of a plain request alone; and which status each case ends in |
| Dialing.DialsTheLiteral | server/proxy.go:263-263 | the dialler reads the very address from the text it is given, so no name is resolved again |
| Tunnel.FlowStep | server/proxy.go:338-344 | a copier never reorders, repeats or invents bytes |
| Tunnel.ControlStep | server/proxy.go:301-336 | open connections and channel tokens fit the handler's position |
| Tunnel.InvAlways | server/proxy.go:301-344 | both hold in every state of every run |
| Tunnel.DeliversPrefixes | server/proxy.go:323-331 | the upstream has a prefix of the buffered bytes followed by the client's, the client a prefix of the 200 line followed by the upstream's bytes, and nothing is lost while a copier runs (section 9.3.6 of RFC 9110) |
| Tunnel.ReturnsClosed | server/proxy.go:301-336 | the handler returns only with the dialled and the client connection closed and no copier running, on every path |
| Tunnel.ShutdownEnds | server/proxy.go:332-335 | once both connections are closed every step brings the return closer and there is always one |
| Headers.CanonicalByCase | server/proxy.go:464-476 | a canonical token is the canonical form of exactly the names equal to it up to case |
| Headers.Header.HeaderHasToken | server/proxy.go:453-462 | the loops find whether some member of the list is the token |
| Headers.Header.RemoveHopHeaders | server/proxy.go:464-476 | the loops remove exactly the fixed and the named fields |
| Headers.Header.Forward | server/proxy.go:352-361 | the forwarded fields are the received ones without these, and the upgrade asked for |
| Headers.HopKeysByName | server/proxy.go:464-476 | a field is removed exactly when its name equals, up to case, a fixed one or a member of Connection |
| Headers.NeverForwarded | server/proxy.go:464-476 | none of the nine fixed fields is forwarded, whatever its case, and Proxy-Authorization in no case; Connection and Upgrade return for an upgrade alone |
| Headers.ForwardsExactly | server/proxy.go:352-361 | all other fields keep their values in order; Connection and Upgrade return only if the client sent both (section 7.6.1 of RFC 9110) |

## Left out

- Status messages, badge texts, popup, HTML and CSS: status() is modelled as far as TEST_IP reads it, and every report to the user is one await.
- The text of the PAC script: a PAC is the proxy and the exclusions the script is generated from, and two scripts are taken to be equal exactly when these are.
- `isAllowedIncognitoAccess` and the read after it are one step, since Chrome reloads the extension when that permission changes.
- Messages that arrive during boot: they are delivered once it has ended, as the code awaits it before it looks at them.
- A worker's death between an await's effect and the next stretch is a step of its own; a death inside a stretch is not modelled, since a stretch has no effect of its own.
- Settling: once the worker is left alone, calls of boot and of tasks succeed; a new message, request or proxy error counts as someone else acting.
- Chrome's setting events: they may come at any time and any number of times, except in `Settling`, where each needs a change and a change causes at most two.
- `toLowerCase` outside ASCII, the Kelvin sign excepted: no other character lower-cases to a host character.
- ConnectionKey.KeyRoundTrip: covers printable-ASCII credentials; the decoder of the model refuses payload bytes above 127, which no exported key has.
- Json: numbers are exact reals, so the rounding of doubles is not captured; negative numbers are not written; unpaired surrogates are refused when read.
- Digests, HMAC and X.509: a matching predicate and digest functions are parameters; collision freedom is a stated assumption where a skip or an authorisation needs it.
- Publication: Certbot, the health check and the random names are parameters; file modes, owners, fsync durability and the temporary files inside the staging directory are not modelled.
- `ensure_config`, `ensure_credentials` and the other preparations of a cycle: they are one outcome; only the address list they store is modelled.
- Reload: file reads are atomic, one instant each; the causes of failed reads and parses are parameters.
- ProxyAuth.HeaderCredential: Unicode case folding is a parameter, the representative of each folding orbit; every result holds for any such function.
- PublicIp: parsing and printing of address texts are parameters with a stated agreement between Python and Go; Python's registry is the explicit table.
- SelfAddresses.ProxyServer.SelfAddresses: other goroutines are a havoc that only adds learned addresses; the interleavings themselves are those of `SelfAddresses.GuardCovers`.
- Scripts.Script.AwaitReply: the module flags do not change while a task waits; that no one else changes them then is `Coupling.ShapeStep`, by which only tasks that record errors, and those change no flag, run beside boot.
- ServiceWorker: the earlier stretches of the auth handler and of TEST_IP are the function `Worker.HandlerMove`; only their last stretches are also written in place.
- Real sockets, TLS handshakes, HTTP framing, deadlines, half-closed connections and the upgrade relay after a 101 response: the tunnel's connections are open or closed.
- Response headers and status codes of refusals, `server/acme.go`, shell scripts and systemd units: they would add only easy members.
