# Mux, modelled and proved in Dafny

Mux is a coding-agent multiplexer with a desktop app, a VS Code extension, a mobile app and a command line. This
project models the parts of it whose behaviour is hardest to see from reading one function, and proves what they keep.
`dafny verify dfyconfig.toml` checks everything.

Code that works step by step is modelled step by step. Where handlers interleave, every segment between two awaits is one
atomic step of a state machine (`ChatProtocol`, `Updater`, `RunLoop`, `DeepLinks`); the theorems speak about all runs of
these machines. The program's own objects are classes whose methods assign the same fields and are proved to take
exactly these steps (`ChatViewProvider`, `UpdaterService`, `RunSession`); a step in which an object runs no code, such as a
promise that resolves unheard or a window that closes, has no method. Where a loop computes something, the method
with the loop is proved against a specification function, and the lemmas are about that function. What the outside world
answers (a client, a file, a random number, a formatted text, the clock) is a parameter of an event or a method.

## Parts

- `ChatProtocol`, `ChatLog`, `ChatInvariants`, `ChatSteps`, `OrpcSteps`, `ChatTheorems`, `ChatNumbers`, `ChatEffects`, `ChatViewProvider`: the chat view
  provider of the VS Code extension. Chat loops, ORPC calls, streams, refreshes and selections run concurrently and share
  one subscription, two maps and a generation counter.
- `Secrets`, `SecretResolver`, `SecretsConfig`: merging, slash-normalised keys, reference resolution with cycle detection,
  effective secrets. `ModelNames`, `RouteMigration`, `RouteTheorems`: the gateway migration. `WorkspaceListing`, `WorkspaceTheorems`, `WorkspaceValues`: the
  listing that migrates the file it reads, and the lookup.
- `Updater`, `UpdaterCauses`, `UpdaterService`: the desktop updater with its timer, late rejections and simulated updates.
- `RunUsage`, `RunLoop`, `RunTheorems`, `RunOutput`, `RunSession`: the headless run, its budget, its completions and its output lines.
- `AskUserQuestion`, `MarkerInjection`, `DocsTree`, `SchemaDescriber`, `SchemaNames`, `RouterProxy`: two round trips, a tree walk, a layout
  printer, and a proxy that mirrors a tree. `LoremWords`, `NoisyOutput`: a generator with hard bounds. `DeepLinks`: delivery
  over two buffers.
- `Wrappers`, `Text`, `Sequences`: an option type, the operations on strings the code relies on, and first occurrences.

## Where the code does less than one might expect

Each of these is a lemma: the property holds exactly under the stated condition, or a run shows where it ends.

- A webview that is resolved under a live subscription is fed chat events without a reset of its own, until the next
  subscription (`ShownAfterItsResetIff`, `ReplacedIff`, `ReplacedUnderALoop`). A replaced subscription that fails late
  switches the provider to file mode, because that branch does not look at its controller; no other event of an aborted
  loop shows (`StaleFailureLeavesApiMode`).
- Paths that consist of slashes only keep separate keys (`SlashVariantsShareAKey`). A stored value with both a `secret` and an
  `op` field is final as a global secret and a reference as a project's (`HybridsAreFinalOnlyAsGlobals`). A project named
  `__global__` reads and updates the global secrets (`GlobalNameIsTheGlobals`).
- Selecting a model never canonicalises it: it is only trimmed (`SelectingOnlyTrims`).
- A workspace whose creation time is the empty string is written on every load, and one whose legacy file cannot be read
  is never migrated (`SettlesInTwoPasses`). A project path `/` is stripped to nothing and skipped by the listing, not by the lookup
  (`EmptyProjectIsFoundNotListed`).
- An announcement of a check that comes after the check timed out leaves the updater checking until the platform speaks
  again (`LateAnnouncementSticks`). A late rejection can take a download back to idle
  (`OnlyALateRejectionForgetsADownload`, `LateRejectionHappens`).
- The sum of a usage history always has a cost, so the unknown-pricing error at stream end cannot be raised
  (`EndVerdict`). The first message, and no other, is sent whatever the budget says (`OverBudgetSendsIff`,
  `FirstMessageIsUnchecked`), and a budget error that finds no completion pending is lost (`BudgetErrorStopsIff`, `LateBudgetErrorIsLost`). The comment promises a blank line
  between consecutive tools; there is none after a tool that left its line open (`SpacingIs`).
- An option label spelled `__other__` breaks the round trip of the answers that name it (`AnswersRoundTrip`).
- A block that holds the end marker, or a carriage return, never gets in sync with the flag that keeps the skill file in
  step (`WriteThenCheck`, `ClosesOnceIff`).
- An array of arrays of objects without fields is described with its brackets at the start of a line
  (`IndentedIff`, `EmptyObjectsInArraysAreRagged`).
- A deep link sent directly is lost if the send throws (`OnlyDirectSendsLose`), and after a failed flush later links overtake
  the buffered ones (`FailedFlushLetsLinksOvertake`). Order is kept exactly in the runs without either
  (`SteadyThroughoutIff`).

## Model

| member | source | states |
|---|---|---|
| `ChatTheorems.OneLoopPerSelection` | vscode/src/extension.ts:1670-1756 | in every reachable interleaving the one live unaborted chat loop is the one in `subscriptionAbort`, for `subscribedWorkspaceId`; every posted `chatEvent` is for the workspace selected then, the last `chatReset` before it named that workspace, and it went to the same webview if and only if no webview was resolved in between |
| `ChatTheorems.ShownAfterItsResetIff` | vscode/src/extension.ts:1728-1739 | in every reachable state an event that is shown goes to the webview that got the last `chatReset` if and only if no webview was resolved under its subscription |
| `ChatTheorems.ReplacedIff` | vscode/src/extension.ts:1031-1041 | which steps that is: a live subscription is under a replaced webview after a step if and only if it is the old one and was so before or the step resolves a webview; a new subscription never is |
| `ChatTheorems.AnsweredAtMostOnce` | vscode/src/extension.ts:1320-1342 | an accepted ORPC call is answered at most once, not before it ends, exactly once if it ended without being aborted, and always under its own request id |
| `ChatTheorems.LiveCallsHaveOwnIds` | vscode/src/extension.ts:1662-1667 | `pendingOrpcCalls` holds exactly the live unaborted calls, so no two share a request id, also when an id is cancelled and used again |
| `ChatTheorems.CancelledCallIsNeverAnswered` | vscode/src/extension.ts:1472-1480 | after a cancel no continuation of the run ever answers that call, whatever reuses its id |
| `ChatTheorems.CancelledStreamShowsNoData` | vscode/src/extension.ts:1482-1497 | after a stream cancel no continuation of the run posts data of that stream |
| `ChatTheorems.DisposeSilences` | vscode/src/extension.ts:985-1008 | after dispose no pending call is ever answered and no open stream posts data |
| `ChatTheorems.StreamsInOrder` | vscode/src/extension.ts:1508-1551 | every stream posted its response, then a prefix of its iterator's values in order (all of them if it was not cancelled), then one terminal message if its pump ended; `activeOrpcStreams` is exactly the pumps neither finished nor cancelled |
| `ChatTheorems.IndexByIdIsLast` | vscode/src/extension.ts:1401 | the index built from the list maps an id to its last workspace of that id |
| `ChatTheorems.RefreshesInOrder` | vscode/src/extension.ts:1383-1445 | `workspacesById` is always the index of `workspaces`, also after the error branch, and the generations of the applied results strictly increase |
| `ChatTheorems.StaleRefreshIsDiscarded` | vscode/src/extension.ts:1391-1397 | a result is applied if and only if its generation is the latest; otherwise nothing but its own task changes |
| `ChatTheorems.StepKeeps` | vscode/src/extension.ts:1293-1381 | every segment of every handler keeps the whole invariant (fresh controllers, one subscription, pending calls, streams, traces, lists) |
| `ChatTheorems.RunKeeps` | vscode/src/extension.ts:938-1756 | so does every interleaving of segments, of any length |
| `ChatTheorems.ReplacedUnderALoop` | vscode/src/extension.ts:1031-1041 | whenever a webview is resolved under a live subscription, its loop connecting, opening or reading, the new webview can get a `chatEvent` although the last `chatReset` went to an older one |
| `ChatTheorems.LoopingRun` | vscode/src/extension.ts:1670-1739 | a run that reaches such a state |
| `ChatTheorems.StaleFailureLeavesApiMode` | vscode/src/extension.ts:1699-1720 | in every reachable state an event of an aborted loop leaves the messages, the mode and the subscription alone if and only if it is not the failure of its client; that failure posts, and puts the provider in file mode |
| `ChatTheorems.ReselectedRun` | vscode/src/extension.ts:1010-1029 | a run that reaches a state in which an aborted loop still waits for its client, while its successor lives |
| `ChatNumbers.DeliveriesAreNumbered` | vscode/src/extension.ts:1262-1272 | in every run the delivered messages are numbered 1, 2, 3 and so on without a gap, over all webviews |
| `ChatEffects.StartIs` | vscode/src/extension.ts:938-971 | only the stored selection survives from an earlier session |
| `ChatEffects.PostIsDelivered` | vscode/src/extension.ts:1239-1268 | a message reaches the present webview if and only if that is ready, with the next number |
| `ChatEffects.UpdateFollows` | vscode/src/extension.ts:1670-1697 | the subscribed workspace becomes the wanted one: none without a connection or a selection, unchanged without a ready webview; it is kept if it was that one, else dropped, and a fresh loop is made if any is wanted |
| `ChatEffects.UpdatePosts` | vscode/src/extension.ts:1670-1697 | `chatReset` is posted if and only if a new subscription is made |
| `ChatEffects.UpdateResumes` | vscode/src/extension.ts:1670-1756 | who awaits the update goes on at once, or when the new loop ends |
| `ChatEffects.ViewIsResolved` | vscode/src/extension.ts:1031-1041 | a fresh webview, not ready; subscription and tasks go on |
| `ChatEffects.AllIsDisposed` | vscode/src/extension.ts:985-1008 | exactly the subscription, the pending calls and the open streams are aborted and forgotten; nothing is posted |
| `ChatEffects.WebviewIsReady` | vscode/src/extension.ts:1352-1361 | the webview hears of the selection, and a refresh of a new generation starts |
| `ChatEffects.RefreshIsApplied` | vscode/src/extension.ts:1389-1411 | the latest result is written and posted, status before list; a selection that is not in the list is cleared, otherwise the subscription follows the new connection |
| `ChatEffects.RefreshFails` | vscode/src/extension.ts:1420-1438 | connection, list, selection and subscription are dropped, and nothing is posted yet |
| `ChatEffects.RefreshErrorIsReported` | vscode/src/extension.ts:1440-1443 | the four posts of the error branch, in order, or only a notice if the store fails |
| `ChatEffects.RefreshGoesOn` | vscode/src/extension.ts:1406-1411 | the subscription follows |
| `ChatEffects.SelectionIsMade` | vscode/src/extension.ts:1010-1021 | a changed selection holds at once and goes to the store; the same one is posted again, and the subscription follows |
| `ChatEffects.SelectionIsStored` | vscode/src/extension.ts:1022-1029 | the stored selection is posted, and the subscription follows the selection of that moment |
| `ChatEffects.SelectionIsNotStored` | vscode/src/extension.ts:1010-1029 | a notice, or the failure of the refresh that awaits the store |
| `ChatEffects.ClientFailureIsReported` | vscode/src/extension.ts:1699-1720 | file mode, a status and a notice; the loop ends, and the subscription with it if it is this loop's |
| `ChatEffects.EventIsShownIff` | vscode/src/extension.ts:1728-1739 | an event is shown, unchanged, if and only if its loop is not aborted and its workspace still selected; otherwise the loop shows nothing more |
| `ChatEffects.LoopGoesOn` | vscode/src/extension.ts:1699-1728 | from the client to the iterator to its events, without a post |
| `ChatEffects.LoopEnds` | vscode/src/extension.ts:1740-1756 | the end of a loop ends its own subscription and no other, with a notice if it threw unaborted |
| `ChatEffects.CallIsTaken` | vscode/src/extension.ts:1320-1342 | a duplicate id is rejected; a path that is not allowed, or a call without a connection, fails in the same step and never awaits a client; any other call awaits one |
| `ChatEffects.CallIsMade` | vscode/src/extension.ts:1587-1617 | without a client or a procedure, or if that throws at once, the call fails; otherwise it awaits its result |
| `ChatEffects.ResultIsAnswered` | vscode/src/extension.ts:1614-1661 | an unaborted call posts exactly one message, its answer: the value it returned, the failure, or a stream not opened before; an aborted one posts nothing |
| `ChatEffects.AnswerIsTheResult` | vscode/src/extension.ts:1614-1661 | in every continuation of a run, the one answer of a call that was not cancelled says what its procedure gave |
| `ChatEffects.SuccessComesFromTheResult` | vscode/src/extension.ts:1644-1661 | no run answers a call with a value or a stream unless its procedure gave exactly that |
| `ChatEffects.CancelIsExact` | vscode/src/extension.ts:1472-1480 | a cancel aborts and forgets the call it names and nothing else |
| `ChatEffects.StreamCancelIsExact` | vscode/src/extension.ts:1482-1497 | so does the cancel of a stream |
| `ChatEffects.PumpGoesOnIff` | vscode/src/extension.ts:1508-1528 | a stream is read on if and only if it is not aborted |
| `ChatViewProvider.MuxChatViewProvider.constructor` | vscode/src/extension.ts:968-971 | starts with the stored selection and nothing else |
| `ChatViewProvider.MuxChatViewProvider.PostMessage` | vscode/src/extension.ts:1239-1260 | a message is logged, and delivered with the next number only to a present and ready webview |
| `ChatViewProvider.MuxChatViewProvider.AbortAll` | vscode/src/extension.ts:992-1007 | aborts exactly the given controllers |
| `ChatViewProvider.MuxChatViewProvider.ClearSubscription` | vscode/src/extension.ts:1677-1679 | aborts the subscription, if any, and empties both fields |
| `ChatViewProvider.MuxChatViewProvider.DisposeProvider` | vscode/src/extension.ts:985-1008 | aborts the subscription, every pending call and every stream, and empties the maps |
| `ChatViewProvider.MuxChatViewProvider.ResolveWebviewView` | vscode/src/extension.ts:1031-1041 | a new webview that is not ready |
| `ChatViewProvider.MuxChatViewProvider.OnDidDispose` | vscode/src/extension.ts:1112-1120 | the webview goes, and everything is disposed |
| `ChatViewProvider.MuxChatViewProvider.UpdateChatSubscription` | vscode/src/extension.ts:1670-1697 | returns, drops the subscription, keeps it, or replaces it and posts `chatReset`, on exactly the source's conditions |
| `ChatViewProvider.MuxChatViewProvider.ReplaceSubscription` | vscode/src/extension.ts:1691-1695 | aborts the old controller and installs a fresh one for the selection |
| `ChatViewProvider.MuxChatViewProvider.EndSubscription` | vscode/src/extension.ts:1750-1755 | clears the fields only if they are still this loop's |
| `ChatViewProvider.MuxChatViewProvider.OnClientReady` | vscode/src/extension.ts:1699-1726 | the loop goes on to open its iterator |
| `ChatViewProvider.MuxChatViewProvider.OnChatOpened` | vscode/src/extension.ts:1722-1728 | the loop goes on to read it |
| `ChatViewProvider.MuxChatViewProvider.OnClientFailed` | vscode/src/extension.ts:1699-1720 | file mode, a status, a notice, and the end of this loop |
| `ChatViewProvider.MuxChatViewProvider.OnChatEvent` | vscode/src/extension.ts:1728-1739 | posts the event only while unaborted and still selected |
| `ChatViewProvider.MuxChatViewProvider.OnChatThrew` | vscode/src/extension.ts:1740-1755 | a notice unless aborted, then the end of the loop |
| `ChatViewProvider.MuxChatViewProvider.SetSelectedWorkspaceId` | vscode/src/extension.ts:1010-1021 | re-posts an unchanged selection, or stores a changed one |
| `ChatViewProvider.MuxChatViewProvider.OnSelectionStored` | vscode/src/extension.ts:1022-1029 | posts the stored selection and updates the subscription |
| `ChatViewProvider.MuxChatViewProvider.OnSelectionStoreFailed` | vscode/src/extension.ts:1010-1029 | a failed store ends in a notice, or in the error branch of the refresh that awaits it |
| `ChatViewProvider.MuxChatViewProvider.StartRefreshWorkspaces` | vscode/src/extension.ts:1383-1389 | issues the next generation |
| `ChatViewProvider.MuxChatViewProvider.OnReady` | vscode/src/extension.ts:1352-1361 | ready, the selection is posted, a refresh starts |
| `ChatViewProvider.MuxChatViewProvider.BuildIndex` | vscode/src/extension.ts:1401 | the index of the list, the last workspace of an id winning |
| `ChatViewProvider.MuxChatViewProvider.OnWorkspacesLoaded` | vscode/src/extension.ts:1389-1411 | discards a stale result, or applies it, clears a selection that is gone and updates the subscription |
| `ChatViewProvider.MuxChatViewProvider.PublishWorkspaces` | vscode/src/extension.ts:1399-1404 | writes mode, list and index and posts both |
| `ChatViewProvider.MuxChatViewProvider.CheckSelection` | vscode/src/extension.ts:1406-1411 | clears a selection that is not in the list, else updates the subscription |
| `ChatViewProvider.MuxChatViewProvider.OnRefreshResumed` | vscode/src/extension.ts:1406-1411 | the refresh goes on to update the subscription |
| `ChatViewProvider.MuxChatViewProvider.OnRefreshError` | vscode/src/extension.ts:1420-1438 | the error branch up to its await, whatever its generation |
| `ChatViewProvider.MuxChatViewProvider.OnRefreshErrorStored` | vscode/src/extension.ts:1440-1443 | the four posts of the error branch |
| `ChatViewProvider.MuxChatViewProvider.OnRefreshErrorStoreFailed` | vscode/src/extension.ts:1098-1108 | only a notice, without the four posts |
| `ChatViewProvider.MuxChatViewProvider.FinishOrpcCall` | vscode/src/extension.ts:1662-1667 | removes the pending entry only if it is still this call's |
| `ChatViewProvider.MuxChatViewProvider.RespondAndFinish` | vscode/src/extension.ts:1644-1667 | one response, then the end of the call |
| `ChatViewProvider.MuxChatViewProvider.OnOrpcCall` | vscode/src/extension.ts:1320-1342 | rejects a duplicate id; otherwise registers a fresh controller and answers at once a path that is not allowed or a missing connection |
| `ChatViewProvider.MuxChatViewProvider.OnCallClient` | vscode/src/extension.ts:1587-1617 | ends silently when aborted, else answers the failure or waits for the procedure |
| `ChatViewProvider.MuxChatViewProvider.OnCallResult` | vscode/src/extension.ts:1614-1661 | ends silently when aborted, else answers the value, the error, or opens a stream |
| `ChatViewProvider.MuxChatViewProvider.StartStream` | vscode/src/extension.ts:1624-1630 | registers a fresh stream under this call's controller |
| `ChatViewProvider.MuxChatViewProvider.HandleOrpcCancel` | vscode/src/extension.ts:1472-1480 | aborts and forgets a pending call, and does nothing for an unknown id |
| `ChatViewProvider.MuxChatViewProvider.HandleOrpcStreamCancel` | vscode/src/extension.ts:1482-1497 | aborts and forgets an active stream, and does nothing for an unknown id |
| `ChatViewProvider.MuxChatViewProvider.OnStreamValue` | vscode/src/extension.ts:1514-1528 | posts the value, or leaves the loop when aborted |
| `ChatViewProvider.MuxChatViewProvider.OnStreamOver` | vscode/src/extension.ts:1530-1550 | one terminal message, an error only if it threw unaborted, and the stream is no longer active |
| `Secrets.MergeSecretsByKey` | src/node/config.ts:1839-1849 | the merge is the fold of both lists into one insertion-ordered table |
| `Secrets.MergedMeans` | src/node/config.ts:1839-1849 | merged secrets have distinct keys, each with what was last written under it, and exactly the keys of the input |
| `Secrets.MergedInOrder` | src/node/config.ts:1839-1849 | and they stand in the order in which their keys first occur |
| `Secrets.MergeIsAssociative` | src/node/config.ts:1839-1849 | merging three lists gives the same in either order |
| `Secrets.MergedIsStable` | src/node/config.ts:1839-1849 | merging a merged list changes nothing |
| `SecretResolver.GlobalResolver.ResolveGlobalKey` | src/node/config.ts:1960-1996 | the memoised resolver with its in-progress set terminates and returns exactly what the key means by plain chasing, and every memo entry is right as soon as it can be read |
| `SecretResolver.GlobalResolver.ResolveAll` | src/node/config.ts:1998-2004 | in every iteration order the table of resolved globals holds exactly the keys that mean something, with their meaning |
| `SecretResolver.ChasingIsBounded` | src/node/config.ts:1979-1989 | a key means something if and only if chasing gets there in as many steps as the table has keys (pigeonhole) |
| `SecretResolver.CycleMeansNothing` | src/node/config.ts:1965-1968 | no key on a cycle of references means anything |
| `SecretResolver.OnOrIntoACycleMeansNothing` | src/node/config.ts:1965-1989 | nor does any key that leads into one |
| `SecretResolver.MeaningOfStored` | src/node/config.ts:1972-1992 | in terms of what is stored: a literal and an op value mean themselves, a reference what its trimmed target means, anything else nothing |
| `SecretResolver.MeaningFollows` | src/node/config.ts:1972-1992 | a key means its literal, or what its target means; a missing key and an empty target mean nothing |
| `SecretsConfig.KeysAgree` | src/node/config.ts:1859-1864 | every path is stored and looked up under the same key; an all-slash path keeps its own spelling |
| `SecretsConfig.SlashVariantsShareAKey` | src/node/config.ts:1782-1784 | two paths that differ only in trailing slashes share a key, unless both are nothing but slashes |
| `SecretsConfig.GlobalNameIsTheGlobals` | src/node/config.ts:2086-2091 | a project reads and writes the global secrets if and only if its path is `__global__`, with or without slashes behind it |
| `SecretsConfig.NormalizeSecretsConfig` | src/node/config.ts:1851-1877 | the loop over the file's properties computes the normalised config |
| `SecretsConfig.ParsedItems` | src/node/config.ts:1786-1837 | item by item, in order: a literal, a reference or an op value is read, with its flag if that is a boolean; anything else is dropped |
| `SecretsConfig.NormalizedMergesVariants` | src/node/config.ts:1866-1873 | under a key the config holds the left-to-right merge of all properties whose path normalises to it |
| `SecretsConfig.NormalizingIsIdempotent` | src/node/config.ts:1851-1877 | what a normalised config is written as is read back as the same config |
| `SecretsConfig.SecretsStore.LoadSecretsConfig` | src/node/config.ts:1883-1895 | loading gives the current config |
| `SecretsConfig.SecretsStore.SaveSecretsConfig` | src/node/config.ts:1901-1915 | any config is written out, each key once; loading gives it back if and only if its keys and values are normal |
| `SecretsConfig.SecretsStore.GetProjectSecrets` | src/node/config.ts:2075-2079 | what is stored under the path's key, or nothing |
| `SecretsConfig.SecretsStore.UpdateProjectSecrets` | src/node/config.ts:2086-2091 | afterwards every path with the same key reads the given secrets, and every other path reads what it did |
| `SecretsConfig.SecretsStore.GetEffectiveSecrets` | src/node/config.ts:1941-2055 | returns the effective secrets of the current config |
| `SecretsConfig.SecretsStore.GetInjectedGlobalSecrets` | src/node/config.ts:2063-2068 | returns exactly the injected part of them |
| `SecretsConfig.EffectiveSplits` | src/node/config.ts:2006-2054 | effective secrets are injected globals followed by the project's in order: injected keys are distinct and not the project's, an injected secret is exactly a marked global with what it means, a project reference gets its target's meaning, and stays a plain reference only if the target means nothing |
| `SecretsConfig.InjectedIsTheFirstPart` | src/node/config.ts:2063-2068 | filtering the effective secrets by the project's keys leaves exactly the injected part |
| `SecretsConfig.HybridsAreFinalOnlyAsGlobals` | src/node/config.ts:1972-2048 | a value with both fields is its own meaning as a global secret; as a project secret it is replaced if and only if its target means something else |
| `SecretsConfig.MeaningIsNoAlias` | src/node/config.ts:1974-1989 | a resolved value is a literal or an op value, never a mere reference |
| `ModelNames.SpellingsAreCanonical` | src/common/utils/ai/models.ts:35-62 | a gateway's spelling of a model is canonically that model of its origin, if the origin can be used directly |
| `ModelNames.OthersAreCanonical` | src/common/utils/ai/models.ts:35-62 | and every other name is canonical already |
| `ModelNames.CanonicalIsIdempotent` | src/common/utils/ai/models.ts:35-62 | canonical model names are canonical |
| `ModelNames.SelectingOnlyTrims` | src/common/utils/ai/models.ts:84-89 | normalising a selected model is trimming it, for every string |
| `RouteMigration.ParsedConfig.MigrateOnLoad` | src/node/config.ts:527-623 | the in-place migration leaves the migrated config and says whether it modified it |
| `RouteMigration.ParsedConfig.FillRouteOverrides` | src/node/config.ts:544-565 | legacy models only fill gaps in the overrides |
| `RouteMigration.OverridesKeepTheirRoutes` | src/node/config.ts:547-563 | every existing override, under its canonical name, keeps its route; a new one routes to the gateway |
| `RouteMigration.StoredPriorityIsKept` | src/node/config.ts:530-579 | a stored priority array is never altered |
| `RouteMigration.DisabledGatewayIsNotSeeded` | src/node/config.ts:534-542 | a disabled gateway is never put into a seeded priority |
| `RouteTheorems.SeededPriorityIs` | src/node/config.ts:469-579 | a file without a priority gets one if it has something to migrate or some gateway can be used: exactly the gateways that can, without one that is switched off, in the known order, then the direct route |
| `RouteTheorems.SwitchIs` | src/node/config.ts:581-590 | the switch is cleared exactly where a stored priority names the gateway it switches off |
| `RouteTheorems.LegacyModelIs` | src/node/config.ts:545-565 | a legacy gateway model is what the gateway's own spelling names, or `origin/name` |
| `RouteTheorems.LastOverrideCounts` | src/node/config.ts:547-563 | of all spellings of a model the last override counts |
| `RouteTheorems.OnlyEntriesCount` | src/node/config.ts:547-563 | and a model that no entry names has none |
| `RouteTheorems.StringsAre` | src/node/config.ts:601-604 | what is no string is dropped from a stored list, and nothing else |
| `RouteTheorems.ModelsAreTrimmed` | src/node/config.ts:592-623 | stored model names are trimmed and not otherwise changed |
| `RouteTheorems.WrittenIffChanged` | src/node/config.ts:527-623 | the file is written if and only if loading changes it |
| `RouteMigration.MigrationConverges` | src/node/config.ts:483-623 | with the providers unchanged a second load modifies and writes nothing |
| `WorkspaceListing.Config.GetAllWorkspaceMetadata` | src/node/config.ts:1308-1604 | returns the listing, and writes the migrated file if and only if some entry was modified |
| `WorkspaceListing.MigrateWorkspaces` | src/node/config.ts:1324-1595 | the inner loop migrates every workspace of a project and lists it |
| `WorkspaceListing.MigrateProjects` | src/node/config.ts:1308-1604 | so does the outer loop for every project, in order, and it says whether anything was modified |
| `WorkspaceListing.Config.FindWorkspace` | src/node/config.ts:1194-1264 | the first match in stored order, by id or by legacy metadata or legacy id, with the paths, name, parent and title flag of the match |
| `WorkspaceListing.UnmodifiedStays` | src/node/config.ts:1599-1602 | an entry that sets no flag is not changed, so a file that is not written loses nothing |
| `WorkspaceTheorems.ListingIsInStoredOrder` | src/node/config.ts:1313-1324 | one entry per stored workspace, in stored order, except under an empty project path |
| `WorkspaceTheorems.SettlesInTwoPasses` | src/node/config.ts:1338-1595 | an entry is settled after two passes if and only if it is migratable: its creation time is not the empty string, its legacy file, if it is needed, is readable and has an id, and a name taken from its path is not empty |
| `WorkspaceTheorems.TwoPassesSettle` | src/node/config.ts:1308-1604 | so is the whole file, if and only if all of its entries are |
| `WorkspaceTheorems.SettledFileIsFixed` | src/node/config.ts:1599-1602 | a settled file is not written again, and its listing no longer depends on the clock |
| `WorkspaceTheorems.FindAgreesWithListing` | src/node/config.ts:1194-1264 | in a settled file in which no other entry is taken for a listed one, the lookup of a listed id returns the listed path and name and the same attribution project; entries that are not listed need no ids |
| `WorkspaceTheorems.ListingConverges` | src/node/config.ts:1308-1604 | for every migratable file: after two passes every later pass writes nothing and lists the same, and, if no other entry is taken for a listed one, the lookup of every listed id agrees with what is listed |
| `WorkspaceTheorems.EmptyProjectIsFoundNotListed` | src/node/config.ts:1313-1316 | in a settled file a workspace that no other is taken for is found by its id, and is listed if and only if its project path is not empty |
| `WorkspaceValues.MigratingRemembers` | src/node/config.ts:1338-1552 | migrating an entry keeps every stored value: its own, and those of its legacy file, field by field in the source's order of precedence |
| `WorkspaceValues.MigratingTwiceRemembers` | src/node/config.ts:1338-1552 | and so does the second pass |
| `WorkspaceValues.GapsAreFilled` | src/node/config.ts:1426-1552 | what is stored nowhere is made up from the path, the clock and the defaults |
| `WorkspaceValues.ListingShows` | src/node/config.ts:1338-1595 | the listing says what is stored, in the legacy file before the entry; a workspace of several projects is under the first, with all their names |
| `WorkspaceValues.ListedGaps` | src/node/config.ts:1426-1595 | and makes up the rest in the same way |
| `WorkspaceValues.StoredValuesSurvive` | src/node/config.ts:1308-1604 | after two passes over a file of migratable entries every value stored before is still in its entry, and what is listed is what the entry says |
| `WorkspaceValues.LegacyIdIs` | src/node/config.ts:1140-1144 | the old id is made of the last names of the two paths |
| `WorkspaceValues.FirstMeantIsFound` | src/node/config.ts:1194-1264 | the first entry that an id means, by itself, by the legacy file or as the old id, is found with its paths, and with name and flags if the id is its own |
| `WorkspaceValues.NothingMeantIsFound` | src/node/config.ts:1194-1264 | and without one nothing is found |
| `Updater.ChecksAreWatched` | src/desktop/updater.ts:304-383 | over all runs whose announcements are punctual, a check in progress has its timer, or its simulated end, pending |
| `Updater.ChecksAreWatchedFromTheStart` | src/desktop/updater.ts:304-383 | in particular from the start, for a real and for a simulated updater |
| `Updater.LateAnnouncementSticks` | src/desktop/updater.ts:196-200 | an announcement leaves the check watched if and only if it comes while one is; after a late one no sequence of calls gets the status away from checking |
| `Updater.LateAnnouncementHappens` | src/desktop/updater.ts:361-382 | a run with such a late announcement: the check timed out first |
| `Updater.RunKeepsTimer` | src/desktop/updater.ts:289-294 | in every run the timer in `checkTimeout` is the only check timer pending |
| `Updater.ManualCheckEndsLoudly` | src/desktop/updater.ts:304-316 | a check that is or became manual never reverts to idle, whatever happens in between |
| `Updater.RequestIsManual` | src/desktop/updater.ts:304-330 | a manual request ends up in a manual check, unless a download is going on or done; if the platform throws at once, that shows as a failed check |
| `Updater.CallsKeepDownloads` | src/desktop/updater.ts:304-318 | no sequence of checkForUpdates, setChannel and downloadUpdate changes anything while an update is downloading or downloaded |
| `Updater.OnlyALateRejectionForgetsADownload` | src/desktop/updater.ts:387-413 | exactly one thing takes a download back to idle: a late transient rejection of an automatic check |
| `Updater.LateRejectionHappens` | src/desktop/updater.ts:387-413 | a run with such a rejection: the promise of the check that found the update, during its download |
| `Updater.InstallNeedsADownload` | src/desktop/updater.ts:432-526 | in every run from the start, what is offered is the version last completely downloaded, and an install failure comes only after a completed download |
| `Updater.SimulationsDoNotOverlap` | src/desktop/updater.ts:335-358 | simulated checks and downloads run one at a time, and the status says which |
| `Updater.SubscribersHearEverything` | src/desktop/updater.ts:557-580 | a subscriber hears every change in order, and the last it heard is the status |
| `UpdaterCauses.StartIs` | src/desktop/updater.ts:122-169 | a real updater starts idle, a simulated one with its version unless the check shall fail |
| `UpdaterCauses.StatusIsTheVerdict` | src/desktop/updater.ts:202-214 | in every run of a real updater, what is shown as available or up to date is what the platform said last |
| `UpdaterCauses.AnnouncedCanBeDownloaded` | src/desktop/updater.ts:196-227 | every announcement of the platform is shown as it is; an announced update can be downloaded, and a downloaded one installed |
| `UpdaterCauses.CheckIsRequested` | src/desktop/updater.ts:304-427 | a request while busy only makes a running check one by hand; otherwise the check runs under a fresh timer, or has failed at once without any |
| `UpdaterCauses.CheckEnds` | src/desktop/updater.ts:229-270 | only a transient problem of an automatic check, or the timeout of one, is quiet; every other end shows its message |
| `UpdaterCauses.LateEventsFail` | src/desktop/updater.ts:244-270 | a timer that fires late does nothing; any other error belongs to the phase that was going on or had failed |
| `UpdaterCauses.DownloadIsGuarded` | src/desktop/updater.ts:432-442 | a download is accepted if and only if an update is available or a download failed |
| `UpdaterCauses.RequestsAreGuarded` | src/desktop/updater.ts:493-550 | an install and another channel are accepted only when they make sense, and change nothing otherwise |
| `UpdaterCauses.StrangersHearNothing` | src/desktop/updater.ts:557-580 | who does not subscribe, or no longer, is told nothing |
| `UpdaterCauses.SimulatedCheckEnds` | src/desktop/updater.ts:335-358 | a simulated check ends as it is told to, counting its failures |
| `UpdaterCauses.SimulatedDownloadEnds` | src/desktop/updater.ts:462-482 | a simulated download passes every ten percent and is downloaded after a hundred |
| `UpdaterCauses.SimulatedDownloadFails` | src/desktop/updater.ts:446-461 | one that shall fail fails after forty |
| `UpdaterCauses.SimulatedRequests` | src/desktop/updater.ts:437-526 | a request starts such a loop, and a simulated install fails only if it shall |
| `UpdaterService.UpdaterService.constructor` | src/desktop/updater.ts:122-169 | idle, or an available simulated version unless the check shall fail |
| `UpdaterService.UpdaterService.NotifyRenderer` | src/desktop/updater.ts:570-580 | tells every subscriber the status |
| `UpdaterService.UpdaterService.ClearCheckTimeout` | src/desktop/updater.ts:289-294 | clears the pending timer and forgets it |
| `UpdaterService.UpdaterService.SimulateFailure` | src/desktop/updater.ts:275-284 | counts the attempt and shows the failure |
| `UpdaterService.UpdaterService.OnCheckingForUpdate` | src/desktop/updater.ts:196-200 | checking |
| `UpdaterService.UpdaterService.OnUpdateAvailable` | src/desktop/updater.ts:202-207 | timer cleared, available |
| `UpdaterService.UpdaterService.OnUpdateNotAvailable` | src/desktop/updater.ts:209-214 | timer cleared, up to date |
| `UpdaterService.UpdaterService.OnDownloadProgress` | src/desktop/updater.ts:216-221 | downloading |
| `UpdaterService.UpdaterService.OnUpdateDownloaded` | src/desktop/updater.ts:223-227 | downloaded |
| `UpdaterService.UpdaterService.OnError` | src/desktop/updater.ts:229-270 | idle only for a transient problem of an automatic check, otherwise an error in the phase the status tells |
| `UpdaterService.UpdaterService.CheckForUpdates` | src/desktop/updater.ts:304-322 | skipped while busy, upgrading a running check to manual; otherwise a check with its source |
| `UpdaterService.UpdaterService.StartCheck` | src/desktop/updater.ts:322-427 | checking, then a simulated end, a timer and a promise, or the thrown error |
| `UpdaterService.UpdaterService.OnTimeout` | src/desktop/updater.ts:363-383 | ends a check that is still running, loudly if manual |
| `UpdaterService.UpdaterService.OnCheckRejected` | src/desktop/updater.ts:387-415 | the late rejection, whatever the status |
| `UpdaterService.UpdaterService.OnFakeCheckDone` | src/desktop/updater.ts:335-358 | the simulated end of a check |
| `UpdaterService.UpdaterService.DownloadUpdate` | src/desktop/updater.ts:432-482 | accepted only if available or a download failed |
| `UpdaterService.UpdaterService.OnDownloadRejected` | src/desktop/updater.ts:483-487 | a download error |
| `UpdaterService.UpdaterService.OnFakeDownloadTick` | src/desktop/updater.ts:446-478 | one turn of the simulated loop, with what follows its last turn in the same segment |
| `UpdaterService.UpdaterService.InstallUpdate` | src/desktop/updater.ts:493-526 | accepted only if downloaded or an install failed |
| `UpdaterService.UpdaterService.ChangeChannel` | src/desktop/updater.ts:532-550 | no change, refused while busy, or the new channel and idle |
| `UpdaterService.UpdaterService.AddListener` | src/desktop/updater.ts:557-558 | a subscriber is told from now on |
| `UpdaterService.UpdaterService.RemoveListener` | src/desktop/updater.ts:559-561 | and no longer |
| `RunUsage.SumUsageHistory` | src/common/utils/tokens/usageAggregator.ts:51-106 | sums tokens and known costs column by column and says whether a price was unknown |
| `RunUsage.GetTotalCost` | src/common/utils/tokens/usageAggregator.ts:112-124 | the sum of the known costs, or nothing if none is known |
| `RunUsage.TotalOfSum` | src/common/utils/tokens/usageAggregator.ts:51-124 | the total of a summed history is the sum of all its known costs; a non-empty history always has a total |
| `RunUsage.SumOfOne` | src/common/utils/tokens/usageAggregator.ts:51-106 | the sum of one usage is that usage, unknown costs counting nothing |
| `RunUsage.SumIsAdditive` | src/common/utils/tokens/usageAggregator.ts:51-106 | two histories in a row add up column by column, in tokens and in cost |
| `RunUsage.CostsOfFive` | src/common/utils/tokens/usageAggregator.ts:112-124 | a usage costs the sum of its five parts |
| `RunOutput.EverythingIsShown` | src/cli/run.ts:654-1066 | in every run from the start, the output is, apart from newlines, everything that was said, in order, and nothing else; the thinking is exactly everything that was thought |
| `RunOutput.DeltasAreWritten` | src/cli/run.ts:858-876 | text is the old output, the spacing that is due, and the text; tool output follows where the output stands; thinking goes to the other stream |
| `RunOutput.LastOutputIs` | src/cli/run.ts:684-702 | tools, text and thinking are what the next spacing looks back at, and nothing else |
| `RunOutput.DeltaIsJudged` | src/cli/run.ts:999-1043 | the usage of a running message is remembered and judged by itself: warned of and interrupted if it exceeds the budget, an error if it has tokens but no price |
| `RunOutput.SubagentsAreJudged` | src/cli/run.ts:964-995 | usage of sub-agents is recorded and judged together with everything before |
| `RunOutput.EndIsJudged` | src/cli/run.ts:892-962 | the end of another message than the active one records nothing; otherwise the reported usage, or else the last one noted, is recorded and judged with everything before |
| `RunOutput.MessagesSettle` | src/cli/run.ts:827-1044 | exactly which messages reject or resolve the pending completion |
| `RunOutput.ActiveIs` | src/cli/run.ts:845-890 | the active message is the one that started last without a conflict |
| `RunOutput.ConflictIs` | src/cli/run.ts:845-855 | which messages conflict |
| `RunOutput.PlanIsProposed` | src/cli/run.ts:801-825 | a plan counts as proposed as soon as one tool has proposed it |
| `RunOutput.NothingAtFirst` | src/cli/run.ts:636-683 | before anything is heard nothing is shown, sent, recorded or settled |
| `RunOutput.MessageIsSent` | src/cli/run.ts:747-766 | a message goes out with a completion of its own and is awaited once it was accepted |
| `RunOutput.DriverGoesOn` | src/cli/run.ts:1048-1066 | a rejected completion throws; after the first message an exceeded budget ends the run, a proposed plan is executed by a second message, and plan mode without one throws |
| `RunTheorems.RunStaysInBudget` | src/cli/run.ts:704-1066 | from the start: unless the budget was noticed to be exceeded or an error was raised, the known costs are at most the budget; the second message was sent within the budget; the driver never finds a completion resolved without a stream end |
| `RunTheorems.RunKeeps` | src/cli/run.ts:636-1066 | every run keeps all of this, together with the line flag and the completions, and never forgets an excess or an error |
| `RunTheorems.EndVerdict` | src/cli/run.ts:926-944 | the test for unknown pricing at stream end never fires, whatever was recorded; what is left is the comparison with the budget |
| `RunTheorems.SubagentVerdictIs` | src/cli/run.ts:975-993 | the test after sub-agent usage fires if and only if some recorded price is unknown |
| `RunTheorems.SettlesAtLineStart` | src/cli/run.ts:729-745 | whatever settles a completion leaves the output at a line start |
| `RunTheorems.ToolsStartFresh` | src/cli/run.ts:768-825 | every tool and every result of several lines starts on a fresh line; a one-line result goes on where the output stands |
| `RunTheorems.SpacingIs` | src/cli/run.ts:684-702 | what is written between two blocks, exactly; between two tools there is a blank line only if the first had closed its line |
| `RunTheorems.BudgetErrorStopsIff` | src/cli/run.ts:938-941 | a budget error ends the run if and only if a completion is pending when it is raised |
| `RunTheorems.OverBudgetSendsIff` | src/cli/run.ts:1045-1066 | in every reachable state a step sends a message over budget if and only if it sends the first one, after the excess was noticed |
| `RunTheorems.FirstMessageIsUnchecked` | src/cli/run.ts:1048-1049 | a run in which that happens |
| `RunTheorems.LateBudgetErrorIsLost` | src/cli/run.ts:975-986 | a run that finishes as if nothing were wrong after a budget error raised while its message is still being sent |
| `RunLoop.EnsureSpacing` | src/cli/run.ts:684-702 | keeps the line flag true to the text, and puts every transition and every tool at a line start |
| `RunLoop.CloseLine` | src/cli/run.ts:665-668 | keeps the flag true and ends at a line start |
| `RunSession.RunSession.WriteHumanChunk` | src/cli/run.ts:654-658 | appends a text and sets the flag by its end; nothing for the empty text |
| `RunSession.RunSession.WriteHumanLineClosed` | src/cli/run.ts:660-663 | appends a line |
| `RunSession.RunSession.CloseHumanLine` | src/cli/run.ts:665-668 | ends an open line |
| `RunSession.RunSession.Space` | src/cli/run.ts:684-702 | the spacing before a block |
| `RunSession.RunSession.HandleToolStart` | src/cli/run.ts:768-789 | spacing, then the formatted or generic start, inline or as a line |
| `RunSession.RunSession.HandleToolEnd` | src/cli/run.ts:801-825 | closes the line for results of several lines, then the result; remembers a proposed plan |
| `RunSession.RunSession.SettleCompletion` | src/cli/run.ts:729-745 | settles the pending completion, if any, and drops both handlers |
| `RunSession.RunSession.Reject` | src/cli/run.ts:729-734 | closes the line and rejects |
| `RunSession.RunSession.Resolve` | src/cli/run.ts:736-745 | closes the line, marks the stream ended, resolves, forgets the message |
| `RunSession.RunSession.OnStreamEnd` | src/cli/run.ts:892-962 | a mismatched id rejects; otherwise usage or its fallback is recorded and judged, and the stream closes |
| `RunSession.RunSession.RecordAndClose` | src/cli/run.ts:921-962 | records, compares with the budget, closes; the unknown-pricing branch is unreachable |
| `RunSession.RunSession.OnSubagentUsage` | src/cli/run.ts:964-995 | records all usages, then an error for an unknown price or the excess |
| `RunSession.RunSession.OnUsageDelta` | src/cli/run.ts:999-1043 | remembers the usage and judges it alone |
| `RunSession.RunSession.OnControl` | src/cli/run.ts:845-890 | conflicting starts, errors and aborts settle the completion |
| `RunSession.RunSession.OnTool` | src/cli/run.ts:768-825 | tool starts, deltas and ends |
| `RunSession.RunSession.OnText` | src/cli/run.ts:858-863 | text after its spacing |
| `RunSession.RunSession.OnReasoning` | src/cli/run.ts:865-869 | thinking after its spacing, on the other stream |
| `RunSession.RunSession.OnReasoningEnd` | src/cli/run.ts:871-875 | a newline there |
| `RunSession.RunSession.ChatListener` | src/cli/run.ts:827-1044 | hears nothing before caught-up, then handles each event as above |
| `RunSession.RunSession.SendMessage` | src/cli/run.ts:747-766 | a fresh completion and one message |
| `RunSession.RunSession.AfterCompletion` | src/cli/run.ts:716-722 | what the driver does when its completion is settled |
| `RunSession.RunSession.ApprovePlan` | src/cli/run.ts:1051-1066 | stops, throws, finishes, or approves the plan and sends the second message |
| `AskUserQuestion.ParsePrefilledAnswer` | mobile/src/components/AskUserQuestionToolCard.tsx:116-153 | the parser computes the draft of the answer's tokens |
| `AskUserQuestion.DraftToAnswerString` | mobile/src/components/AskUserQuestionToolCard.tsx:167-182 | the printer joins the chosen labels and the trimmed other text |
| `AskUserQuestion.AnswersRoundTrip` | mobile/src/components/AskUserQuestionToolCard.tsx:116-182 | for every question and answer, parse after print after parse gives the same draft if and only if the answer does not name an option spelled like the marker for other |
| `AskUserQuestion.TokensAre` | mobile/src/components/AskUserQuestionToolCard.tsx:132-135 | commas part the tokens; what is between two is one token, trimmed, or none if it is blank |
| `AskUserQuestion.TokensPart` | mobile/src/components/AskUserQuestionToolCard.tsx:137-150 | a token that is a label is chosen in its place, any other one is left for other in its place |
| `AskUserQuestion.ParsedMeans` | mobile/src/components/AskUserQuestionToolCard.tsx:116-153 | one choice is a label or the text for other; several are the labels among the tokens, then other if there is anything else, which is the text |
| `AskUserQuestion.PrintedIs` | mobile/src/components/AskUserQuestionToolCard.tsx:167-182 | the first choice, or all of them with a comma and a space between; other prints the trimmed text |
| `AskUserQuestion.FirstToggleIs` | mobile/src/components/AskUserQuestionToolCard.tsx:278-289 | without a draft a toggle makes the choice |
| `AskUserQuestion.ToggleIs` | mobile/src/components/AskUserQuestionToolCard.tsx:278-303 | one choice is replaced; of several the label is cut out where it is or put last, and the text is kept exactly while other is selected |
| `AskUserQuestion.TypingIs` | mobile/src/components/AskUserQuestionToolCard.tsx:305-319 | typing sets the text and selects other, last if it was not, and changes no other choice |
| `AskUserQuestion.TokensOfPrinted` | mobile/src/components/AskUserQuestionToolCard.tsx:167-182 | the tokens of a printed draft are those of its parts, in order |
| `AskUserQuestion.ParsedIsAnswered` | mobile/src/components/AskUserQuestionToolCard.tsx:155-165 | exactly which answers count as answered |
| `AskUserQuestion.ReachableDraftsSelectOther` | mobile/src/components/AskUserQuestionToolCard.tsx:278-319 | no draft reached by parsing, toggling and typing holds other text without other being selected |
| `AskUserQuestion.ToggleFlips` | mobile/src/components/AskUserQuestionToolCard.tsx:278-303 | a toggle changes the membership of its own label only and leaves no duplicates |
| `AskUserQuestion.TypingOverAChoice` | mobile/src/components/AskUserQuestionToolCard.tsx:305-319 | text typed for a single choice is the answer only if other was chosen first |
| `MarkerInjection.NormalizingIs` | scripts/gen_builtin_skills.ts:35-37 | normal texts have no carriage return, are exactly the ones left alone, and normalising is idempotent |
| `MarkerInjection.NormalizingReplaces` | scripts/gen_builtin_skills.ts:35-37 | every line end, a pair or a lone carriage return, becomes one newline, and nothing else changes |
| `MarkerInjection.InjectionKeepsTheRest` | scripts/gen_builtin_skills.ts:47-67 | fails exactly without both markers in this order; otherwise everything up to the first begin marker and from the first end marker on is unchanged, and between them is the block without its trailing white space |
| `MarkerInjection.Find` | scripts/gen_builtin_skills.ts:54-55 | the first occurrence, or -1 if there is none |
| `MarkerInjection.InjectAgain` | scripts/gen_builtin_skills.ts:47-67 | for every marker name, injection is idempotent if and only if the block, between its own two markers, is closed by the second one and not earlier |
| `MarkerInjection.ClosesOnceIff` | scripts/gen_builtin_skills.ts:52-65 | for a name of one line those are exactly the blocks without the end marker |
| `MarkerInjection.WriteThenCheck` | scripts/gen_builtin_skills.ts:319-451 | a check run after a write run succeeds if and only if the skill file is not kept in step, or the block closes once and has no carriage return |
| `MarkerInjection.CheckAccepts` | scripts/gen_builtin_skills.ts:367-432 | check mode accepts exactly the module of the injected skill and, with the flag, a skill file whose normal form injection leaves alone |
| `DocsTree.Collector.ExtractDocsPagesFromNav` | scripts/gen_builtin_skills.ts:138-163 | collects every page of a node where it is first met |
| `DocsTree.ExtractDocsPages` | scripts/gen_builtin_skills.ts:237-249 | the pages under the tabs' groups, once each, in first-visit order |
| `DocsTree.Renderer.RenderDocsTreeNode` | scripts/gen_builtin_skills.ts:173-222 | appends the lines of a node if and only if every page in it is known, and fails otherwise |
| `DocsTree.Renderer.RenderRecord` | scripts/gen_builtin_skills.ts:198-221 | a titled tab or group, or what is inside an untitled record |
| `DocsTree.RenderDocsTree` | scripts/gen_builtin_skills.ts:224-249 | collecting and rendering succeed if and only if every rendered page was collected |
| `Sequences.FirstsIs` | scripts/gen_builtin_skills.ts:138-145 | the collected pages have no duplicates, are those visited, and stand in the order of their first visits |
| `DocsTree.LookedUpIsVisited` | scripts/gen_builtin_skills.ts:138-222 | every page the renderer looks up in a node the collector met in it |
| `DocsTree.UnderIs` | scripts/gen_builtin_skills.ts:237-249 | of a tab whatever is under its groups is collected, a list or not, and nothing else |
| `DocsTree.TabsAreCollected` | scripts/gen_builtin_skills.ts:237-249 | the pages are collected tab by tab |
| `DocsTree.RenderedIsVisited` | scripts/gen_builtin_skills.ts:138-222 | where no named record hides a list, the pages are rendered in exactly the order in which they are visited |
| `DocsTree.DeeperTree` | scripts/gen_builtin_skills.ts:173-222 | a node one level deeper is rendered as the same lines one level deeper |
| `DocsTree.RecordsAreHeaded` | scripts/gen_builtin_skills.ts:200-221 | a named tab or group is a heading with its own list one level below; without a name its lists stand where it is |
| `DocsTree.RenderingSucceedsIff` | scripts/gen_builtin_skills.ts:138-249 | the missing-page error is unreachable if and only if every page outside the tabs' groups was also collected |
| `DocsTree.GroupedTabsRender` | scripts/gen_builtin_skills.ts:138-249 | tabs that hold pages only under groups always render |
| `LoremWords.WordsFit` | scripts/system1-noisy-output.ts:99-192 | every word has 2 to 13 lower-case letters, and none is the second word of the needle |
| `NoisyOutput.RandomWords` | scripts/system1-noisy-output.ts:397-408 | the words reach the target by less than one word; for targets up to 597 the limit of 200 words never stops them |
| `NoisyOutput.MakeLoremSentence` | scripts/system1-noisy-output.ts:391-432 | for all targets, phrases and random choices, if no assertion fails: length within one word and a comma of the target, below the line limit, with the phrase unbroken inside, and without a phrase never the needle by chance; a capital in front, a full stop at the end, and with enough words the phrase behind six of them and before one; no assertion fails if target and phrase stay below both limits |
| `NoisyOutput.CapitalIs` | scripts/system1-noisy-output.ts:382-385 | only the first letter changes, to its capital |
| `NoisyOutput.AddComma` | scripts/system1-noisy-output.ts:410-414 | a comma behind one of the words 4 to 8 if there are more than twelve; no word becomes one of the needle |
| `NoisyOutput.LineBytesWithNewline` | scripts/system1-noisy-output.ts:194-201 | fails if and only if the line is 1024 bytes or longer |
| `NoisyOutput.Burst.AddLine` | scripts/system1-noisy-output.ts:445-454 | fails exactly when one of its two assertions would; the byte count stays that of the lines |
| `NoisyOutput.FillToMinimum` | scripts/system1-noisy-output.ts:456-470 | passes both minima, stays near them, trips no assertion, and has always put in the needle, once, at its chosen place |
| `NoisyOutput.AddNoise` | scripts/system1-noisy-output.ts:482-491 | fills up below the target without a needle; trips no assertion for targets up to 16384 bytes, and always trips one from 16495 on, whatever the choices |
| `NoisyOutput.GenerateBurst` | scripts/system1-noisy-output.ts:434-503 | for all targets and random choices, if no assertion fails: above 10 and below 300 lines, above 4096 and below 16384 bytes, every line of 96 to 110 characters, or 34 more with the needle; the needle is in exactly one line, with an index from 8 to 17, if it was asked for, and else in none; no assertion fails for targets up to 16384 bytes, one always does from 16495 on |
| `DeepLinks.StepSteadyIff` | src/desktop/main.ts:226-258 | a step keeps accepted == sent ++ buffered, in order, with nothing waiting for a loaded window, if and only if it is neither a direct send that throws nor a flush that throws before its end |
| `DeepLinks.SteadyThroughoutIff` | src/desktop/main.ts:226-258 | so does every state of a run of windows opening, loading and closing, if and only if the run has no such step |
| `DeepLinks.SteadyWhileSendsWork` | src/desktop/main.ts:226-258 | in particular while sends work; then nothing is lost |
| `DeepLinks.LinksAreConserved` | src/desktop/main.ts:226-258 | whatever fails, every accepted link is sent, buffered or lost, once |
| `DeepLinks.OnlyDirectSendsLose` | src/desktop/main.ts:242-258 | exactly one step loses a link: a direct send to a loaded window that throws; a failing flush loses and reorders nothing |
| `DeepLinks.FailedFlushLetsLinksOvertake` | src/desktop/main.ts:231-239 | at whichever link a flush fails, the rest waits and a later link overtakes it |
| `DeepLinks.SubscribersHearAll` | src/desktop/preload.ts:26-39 | while subscribed, a page hears exactly what is received, in order |
| `DeepLinks.StrangersHearNothing` | src/desktop/preload.ts:87-92 | who is not subscribed, or no longer, is handed nothing |
| `DeepLinks.OnePlaceInRuns` | src/desktop/preload.ts:26-39 | links received without a subscriber are pending or consumed, in order, and no other links are; a subscriber has heard only links received with one, in order |
| `DeepLinks.SubscribeThenConsume` | src/desktop/preload.ts:86-92 | a page that subscribes and then consumes sees every link once, in the order of arrival |
| `DeepLinks.LinksArriveInOrder` | src/desktop/main.ts:226-258 | over both hops, in every run of windows opening, loading and closing that no step disturbs: accepted == sent to earlier windows ++ received ++ in flight ++ buffered |
| `DeepLinks.LinksArriveFromTheStart` | src/desktop/main.ts:226-258 | so from the start of the program |
| `DeepLinks.MainProcess.FlushBufferedMuxDeepLinks` | src/desktop/main.ts:226-240 | sends from the front until one send throws |
| `DeepLinks.MainProcess.HandleMuxDeepLink` | src/desktop/main.ts:242-258 | buffers or sends; a throwing send is dropped |
| `DeepLinks.MainProcess.OnDidFinishLoad` | src/desktop/main.ts:999-1007 | loaded, then a flush |
| `DeepLinks.Preload.OnIpcDeepLink` | src/desktop/preload.ts:26-39 | pending without subscribers, else handed to each |
| `DeepLinks.Preload.ConsumePendingDeepLinks` | src/desktop/preload.ts:86 | returns and empties the pending links |
| `DeepLinks.Preload.OnDeepLink` | src/desktop/preload.ts:87-92 | a page subscribes |
| `SchemaDescriber.UnwrapSchema` | src/cli/proxifyOrpc.ts:109-122 | the loop through optional, nullable and default wrappers ends at the first schema that is none |
| `SchemaDescriber.DetectCommonDiscriminator` | src/cli/proxifyOrpc.ts:138-174 | the first of the common fields that is a literal in every option |
| `SchemaDescriber.DescribeObjectFieldsHierarchical` | src/cli/proxifyOrpc.ts:304-337 | one line, or block of lines, per field that is a schema, in order |
| `SchemaNames.FieldsAreNamed` | src/cli/proxifyOrpc.ts:304-337 | every field that is a schema has its own line or block, in order: indentation, key, a mark if it may be left out, its type, or unknown for an empty one |
| `SchemaNames.VariantsAreShown` | src/cli/proxifyOrpc.ts:250-279 | every described option has its own line, in order: indentation, its value of the discriminator or its number, its description |
| `SchemaNames.DetectedIs` | src/cli/proxifyOrpc.ts:138-170 | the discriminator is the first common field that every option holds a literal in |
| `SchemaNames.WrappersAreTransparent` | src/cli/proxifyOrpc.ts:109-122 | wrappers leave no trace in the type |
| `SchemaNames.LeavesAreNamed` | src/cli/proxifyOrpc.ts:178-210 | names, literals and entries are described by themselves |
| `SchemaNames.ArraysSayOfWhat` | src/cli/proxifyOrpc.ts:211-230 | an array says what it is an array of |
| `SchemaNames.UnionsSayOfWhat` | src/cli/proxifyOrpc.ts:239-281 | a union of one-line types is all of them between bars; any other has a line for every described variant |
| `SchemaDescriber.EndsIff` | src/cli/proxifyOrpc.ts:178-337 | for keys and names of one line, a description stops at a line start if and only if the schema ends open, which it shows without being described: it is an object without fields, or its last field, its last described option, or the object or union in the array does; and it is empty if and only if the schema is blank |
| `SchemaDescriber.IndentedIff` | src/cli/proxifyOrpc.ts:178-337 | for keys and names of one line: every continuation line of a description at level n is empty or starts with 4(n + 1) spaces, if and only if the schema has no array whose element is an array that ends open in the sense of `EndsOpen` |
| `SchemaDescriber.FullDescriptionsAreIndented` | src/cli/proxifyOrpc.ts:178-337 | so it is for every schema whose objects all have a field |
| `SchemaDescriber.EmptyObjectsInArraysAreRagged` | src/cli/proxifyOrpc.ts:211-230 | and not for an array of arrays of empty objects |
| `RouterProxy.CreateRouterProxy` | src/cli/proxifyOrpc.ts:573-594 | the loop builds the proxy of every procedure and every nested router, each for its whole path |
| `RouterProxy.ProxyAtIs` | src/cli/proxifyOrpc.ts:573-594 | below every node the proxy has at each path the proxy of what the router has there |
| `RouterProxy.ProxyMirrorsRouter` | src/cli/proxifyOrpc.ts:573-647 | the proxy has something at a path if and only if the router has a router or a procedure there, and a procedure if and only if the router does, and calling it calls the router's procedure at that path, with no input for the empty object of a procedure that takes none |

## Left out

- HTML, logging, timers that only probe, the text of errors and notices, and messages that only post a notice (opening a
  workspace, copying the debug log): no state depends on them.
- Getting an API client is taken to answer a client or a failure, never to throw. Random stream names are taken never to
  repeat; controllers and streams are fresh numbers. Closing a server-side iterator is best effort and has no effect here.
- JavaScript's special property names and its order of integer-like keys; JSON and JSONC syntax; file permissions. A secrets
  or config file is the list of its properties.
- Two overlapping calls of `editConfig`: load, change and save are one step.
- Which providers are eligible for routing is a parameter; so are the clock and the session files.
- Fields of a workspace that are copied through unread (title, parent, task fields, archive flags), container names, and
  backslashes in the last path component.
- Update events are taken one at a time; a subscriber that calls the service from its callback is not modelled. Installing marks
  a flag for the app's quit handler, which is not part of this model.
- The arguments of a tool only feed its formatter, whose result is a parameter of the event. Rejections nobody awaits are
  not followed. The final cost line and the quiet-mode output come after the modelled run.
- The phrase of a generated sentence comes as its words, and only letters from a to z are made capital.
- The other skills in the generated module, which do not depend on the block: rendering it is a function of the one skill.
- DeepLinks.LinksArriveInOrder: counts links in flight to a window that closes among those sent to earlier windows; whether that
  window's page still gets them is not modelled.
- Reloading a page empties its preload script; that is the start of a new page here.
- The top-level layout and the schema cloning of `src/cli/proxifyOrpc.ts`, whose effect is in another library.
- The git mode of the noise script, which prints a fixed text, and its needles mode, whose loop is that of `AddNoise` over
  fixed lines; the YAML front matter and the file walk of the skills script; the parsers of single config fields, each of
  which is one type test.
- Floating-point rounding of costs: they are real numbers here.
