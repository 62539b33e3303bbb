# terok-clearance: the authorisation loop, verified

terok-clearance asks an operator about connections a container's firewall refused. A shield reader reports
a blocked connection to the **hub**; the hub records which `(container, dest)` a verdict on that request id
must cite and fans the event out to bounded queues; a **subscriber** turns it into one prompt per target on
a **notifier**; a click goes back to the hub as a `Verdict`, which the hub checks against its record before
the verdict helper runs `terok-shield`. This project models that loop and proves what it promises, over
every run and every interleaving.

## How the model is laid out

Each part that changes state in place is a class, and each of its methods is proved against a function on
the part's state; the run theorems are about those functions.

| file | what it holds |
|---|---|
| `Events.dfy`, `HubModel.dfy` | wire values; one hub step as functions on the hub's state |
| `Hub.dfy` | the hub object: dicts, mute set, subscriber queues |
| `HubProtocol.dfy` | the hub as a protocol with verdicts in flight: provenance, conservation, the event stream |
| `ReaderLines.dfy` | what a raw reader line comes to: accepted or not, its fields, and the target it names end to end |
| `HubWire.dfy`, `HubPurges.dfy`, `HubTiming.dfy`, `HubMutes.dfy` | clean fields and identity; purges; expiry; mutes |
| `FanOut.dfy` | bounded queues against the one history |
| `Notifications.dfy`, `SubscriberModel.dfy`, `SubscriberObject.dfy` | callback notifier, subscriber steps, subscriber object |
| `Desk.dfy`, `PopupRuns.dfy`, `PromptRuns.dfy`, `PromptCallbacks.dfy`, `SuspendedPrompts.dfy` | several subscribers on one notifier; alerts, counters, prompts and callbacks over runs; a notifier that suspends |
| `ClearanceLoop.dfy`, `VerdictAgreement.dfy`, `PromptsMatchHub.dfy`, `Scenarios.dfy` | the closed loop, its two end-to-end results, and the short runs that show their limits |
| `VerdictConnection.dfy`, `ClientTransport.dfy` | connection management on both sides |
| `WireSanitize.dfy`, `PangoEscaping.dfy` | the string rules |

Modelling decisions a reader needs:

* A hub coroutine is atomic except `_apply_verdict`, which suspends in the helper call with its binding
  already out of the map. `Begin`, `Reply` and `Abort` are its three steps, and the suspended calls are an
  explicit collection of which any may answer next. `Abort` is an exception or cancellation out of the call.
* A raw JSON value is represented by what `str()` and `int()` make of it. Every exception the translator can
  raise has one effect, the line is dropped, so all of them are `None`.
* Clock readings, the consumer hook's exceptions, connect outcomes and helper replies are parameters of the
  steps. Times are `real`, back-off seconds are whole numbers.
* Dispatched coroutines are tasks in FIFO order. With `CallbackNotifier` no notifier call suspends, so a
  handler or a task is one step; `SuspendedPrompts.dfy` drops that assumption for the prompt table.
* Steps that are not possible (a reply to a call that is not in flight) leave the state as it is, so the run
  theorems hold of every sequence of actions without side conditions.

Where the code and its documentation differ, the model follows the code: `sanitize` promises
`len(result) <= max_len` for every cap and keeps it exactly for non-negative ones
(`WireSanitize.LengthCap`); the hub is said to release a binding on `verdict_applied`, but it is taken out
when the verdict is admitted and put back if it fails.

Some expected properties fail on some inputs. Each is proved with the condition that decides it:

* Once a subscriber has caught up, a prompt can be answered exactly if its id is not empty, was not unbound by expiry or an aborted call, and
  the prompt shows the last block under that id (`PromptsMatchHub.ScreenMatchesHub`). A second block under a
  reused id that names no target, or meets a raising hook, breaks the last one (`SecondBlockDecides`).
* With unique ids no subscriber verdict is a tuple mismatch (`VerdictAgreement.NeverAMismatch`). A reused id can
  make one: a click on a prompt whose id was blocked again is refused exactly if the two triples differ
  (`ReusedIdMismatches`).
* A binding can outlive the TTL by more than the time since the last sweep exactly if a failed verdict put it
  back, since that sweep, at an age past the TTL (`HubTiming.AgeBound`, `RestoredCanBeOlder`).
* A shield that is down has no alert on screen if the consumer accepted none since the last one was closed
  (`PopupRuns.AlertIsAFold`, `RaisingHookHidesAlert`). A stale alert never stays.
* A helper transport is left open out of reach exactly by each connect that finds one still in the field, which
  only a proxy build that died leaves there (`VerdictConnection.AtMostOneTransport`, `DeadBuildLeaks`).

## Model

| member | source | states |
|---|---|---|
| PromptsMatchHub.ScreenMatchesHub | src/terok_clearance/client/subscriber.py:352-481 | over every run: when a lossless subscriber has caught up, the last word on a prompt's id is a block, and the hub accepts a verdict on what the prompt shows iff the id is non-empty, was not unbound silently since, and the prompt shows that block |
| PromptsMatchHub.PromptsAnswerable | src/terok_clearance/hub/server.py:440-505 | with nothing unbound silently, and either unique ids or every block shown, exactly the prompts with an id are answerable |
| PromptsMatchHub.SecondBlockDecides | src/terok_clearance/client/subscriber.py:425-459 | two blocks under one id, whatever lines and hooks: the prompt left is answerable iff the second block was shown or named the same triple |
| PromptsMatchHub.LiveOnScreen | src/terok_clearance/client/subscriber.py:476-559 | a live id can be answered from the screen iff what was delivered leaves a prompt standing for the bound triple |
| PromptsMatchHub.FailedVerdictHidesLive | src/terok_clearance/client/subscriber.py:483-495 | a failed verdict leaves its id live and without a prompt |
| PromptsMatchHub.RunSynced | src/terok_clearance/hub/server.py:586-652 | the inductive invariant of every run, accounting for queued events, unexecuted purge tasks and verdicts in flight |
| PromptsMatchHub.AllBound | src/terok_clearance/hub/server.py:479-505 | if the last word on a live id is a block, the id is bound to that block's triple and is not recorded as unbound |
| PromptsMatchHub.SecureStep | src/terok_clearance/hub/server.py:606-652 | no hub step takes a bound triple away silently: it stays answerable or in flight, is recorded as unbound, or an event saying so goes out |
| PromptsMatchHub.DeliveryTracks | src/terok_clearance/client/subscriber.py:352-411 | delivering any event keeps every prompt accounted for, dedup, category gates and raising hooks included |
| PromptsMatchHub.TaskTracks | src/terok_clearance/client/subscriber.py:547-559 | a purge task drops only prompts that need no account any more |
| PromptsMatchHub.DisabledShowsNothing | src/terok_clearance/client/subscriber.py:363-365 | with the blocked category off no prompt ever becomes pending |
| PromptsMatchHub.NothingUnbound | src/terok_clearance/hub/server.py:507-526 | without aborts, and without sweeps unless expiry is disabled, nothing is unbound silently |
| PromptRuns.PromptIsAFold | src/terok_clearance/client/subscriber.py:414-559 | with no purge queued, a prompt is on screen for a triple iff the deliveries say so: last shown block under the id with no purge of its container queued, and no outcome, takeover or retirement since |
| VerdictAgreement.NeverAMismatch | src/terok_clearance/hub/server.py:608-625 | if no id on the stream names two triples, no subscriber verdict is or will be refused as a tuple mismatch, through any interleaving |
| VerdictAgreement.ReusedIdMismatches | src/terok_clearance/hub/server.py:489-494 | a click on a prompt whose id was blocked again is refused, as a mismatch, iff the two triples differ; run through queue, click, task and call |
| ClearanceLoop.LoopInvariant | src/terok_clearance/client/subscriber.py:469-474 | every triple in a callback, prompt, task or call on the wire was emitted by the hub, and every queue is the tail of one history |
| HubProtocol.BindingProvenance | src/terok_clearance/hub/server.py:489-503 | both maps share one key set without the empty key; every binding with its age belongs to one relayed block; every triple the caller got executed was emitted before, with a known action |
| HubProtocol.VerdictTokens | src/terok_clearance/hub/server.py:606-652 | conservation per id: live + in flight + succeeded + lost = block events relayed |
| HubProtocol.AtMostOneVerdict | src/terok_clearance/hub/server.py:627-652 | successes and flights never exceed block events; with an id emitted once at most one lands or is in flight |
| HubProtocol.EmptyIdNeverAnswered | src/terok_clearance/hub/server.py:489-494 | a block without an id can never be answered |
| HubProtocol.NeverMoreOkThanBlocks | src/terok_clearance/hub/server.py:627-652 | in every prefix of the stream, for every id, ok outcomes do not outnumber block events |
| HubProtocol.StreamWellFormed | src/terok_clearance/hub/server.py:636-649 | each outcome on the stream follows a block with its id and container, and the outcomes are the helper's answers one for one, with flag and sanitised reason |
| HubProtocol.AbortIsSilent | src/terok_clearance/hub/server.py:627-627 | an exception or cancellation out of the helper call drops that call, and leaves the maps and the stream as they are |
| HubProtocol.ConfigFixed | src/terok_clearance/hub/server.py:317-324 | no run changes what the hub was built for |
| ReaderLines.LineAccepted | src/terok_clearance/hub/server.py:451-462 | a line counts iff its type is allowlisted and it has a container and, for a block, an id, a dest, and a numeric port and proto |
| ReaderLines.KindOfLine | src/terok_clearance/hub/server.py:451-456 | each type, by its literal name, gives its kind |
| ReaderLines.FieldsOfLine | src/terok_clearance/hub/server.py:739-773 | every field of the event from the raw texts, absent optional keys and unused fields empty |
| ReaderLines.AbsentReadsEmpty | src/terok_clearance/hub/server.py:749-756 | a line without `domain` or `reason` reads as the line with it empty |
| ReaderLines.NoDossierReadsEmpty | src/terok_clearance/hub/server.py:762-773 | a missing or non-object dossier reads as an empty one |
| ReaderLines.StampsContainerOnly | src/terok_clearance/hub/server.py:463-468 | a per-container hub changes the container of a line's event and nothing else |
| ReaderLines.BlockLineBinds | src/terok_clearance/hub/server.py:489-494 | an unmuted clean block line goes out and binds its id to its container and its domain text, or its dest text without one |
| ReaderLines.BlockLinePrompts | src/terok_clearance/client/subscriber.py:425-474 | delivered, it becomes a prompt on that same target, and the click on its popup queues a verdict citing it |
| ReaderLines.BlockLineAdmits | src/terok_clearance/hub/server.py:606-625 | the hub then admits a verdict on the id iff it cites that container and that text |
| HubWire.WireInvariant | src/terok_clearance/hub/server.py:723-773 | every event ever fanned out has fields of characters from space to tilde, at most 256 of them, and 512 in the reason of an outcome |
| HubWire.LineRoundTrip | src/terok_clearance/hub/server.py:739-759 | a clean event written as a reader line is translated back field for field |
| HubWire.OneIdentity | src/terok_clearance/hub/server.py:463-468 | a per-container hub binds, emits, executes and mutes nothing but its own key |
| HubWire.RetirementEmptiesTheMap | src/terok_clearance/hub/server.py:495-503 | there, any shield_down, disengaged or exited line under any key empties the map at that step |
| HubModel.Configure | src/terok_clearance/hub/server.py:309-324 | accepts exactly a short id or no container, aliases only with a container, and maps every known key to the one the events carry |
| HubModel.ShortIdExact | src/terok_clearance/hub/server.py:81-81 | a short id is twelve hexadecimal digits in either case |
| HubModel.AdmitExact | src/terok_clearance/hub/server.py:606-625 | admitted iff allow or deny, on a live id, citing its triple; which refusal otherwise; nothing consumed by one |
| HubModel.AllowlistExact | src/terok_clearance/hub/server.py:143-151 | a reader type passes iff it is allowlisted, under its own name, or is `pending`; no reader line becomes a verdict outcome |
| HubModel.MuteAddressing | src/terok_clearance/hub/server.py:656-670 | a mute reaches the short id under exactly the short id and the launcher's aliases; a multi-container hub takes keys as given |
| HubPurges.PurgeExact | src/terok_clearance/hub/server.py:495-505 | a retiring event removes every binding of its container and no other |
| HubPurges.PurgeLasts | src/terok_clearance/hub/server.py:628-635 | afterwards a binding of the container comes only from a later block or a verdict in flight at the purge |
| HubPurges.FlightOutlivesPurge | src/terok_clearance/hub/server.py:628-635 | that second source is real |
| HubTiming.AgeBound | src/terok_clearance/hub/server.py:507-537 | a binding is older than TTL plus the time since the last sweep iff a failed verdict put it back since then at an age past the TTL; never, if no sweep caught a verdict in flight |
| HubTiming.RestoredCanBeOlder | src/terok_clearance/hub/server.py:628-635 | such put-backs exist, for any age |
| HubTiming.FailedRetryKeepsAge | src/terok_clearance/hub/server.py:628-635 | from admission to a failed reply, whatever runs in between but the end of that very call, the flight stays in flight and the binding returns with its age not refreshed |
| HubTiming.SweepExact | src/terok_clearance/hub/server.py:513-526 | a sweep removes exactly the entries past the TTL, none without one, and the count is right |
| HubMutes.MuteIsAFilter | src/terok_clearance/hub/server.py:469-477 | the relayed reader events are those of the run without mutes, minus exactly the blocks whose container was muted on arrival |
| HubMutes.LatestDecides | src/terok_clearance/hub/server.py:656-713 | a key is muted iff the latest of launch seed, SetMute and container exit says so |
| HubMutes.LessIsCodePointOrder | src/terok_clearance/hub/server.py:715-717 | the listing's order: the smaller code point at the first difference, or the proper prefix, comes first |
| HubMutes.ListingUnique | src/terok_clearance/hub/server.py:715-717 | equal mute states give equal listings |
| HubMutes.Sorted | src/terok_clearance/hub/server.py:715-717 | the listing is strictly ascending in code-point order and lists exactly the set |
| Hub.ClearanceHub.constructor | src/terok_clearance/hub/server.py:295-332 | starts empty with every served seed muted |
| Hub.ClearanceHub.SeedMute | src/terok_clearance/hub/server.py:672-684 | mutes a served key, ignores a foreign one |
| Hub.ClearanceHub.RelayReaderEvent | src/terok_clearance/hub/server.py:440-477 | new state and every queue after one line, malformed and muted ones included |
| Hub.ClearanceHub.UpdateLiveVerdicts | src/terok_clearance/hub/server.py:479-505 | the maps follow the event stream |
| Hub.ClearanceHub.PopAll | src/terok_clearance/hub/server.py:501-503 | the pop loop removes exactly the stale ids from both maps |
| Hub.ClearanceHub.CleanupStaleVerdicts | src/terok_clearance/hub/server.py:507-526 | expires exactly the stale entries and returns their number |
| Hub.ClearanceHub.FanOut | src/terok_clearance/hub/server.py:539-550 | every subscriber queue gets the event, dropping its oldest when full |
| Hub.ClearanceHub.Subscribe | src/terok_clearance/hub/server.py:578-579 | adds one fresh empty queue |
| Hub.ClearanceHub.Unsubscribe | src/terok_clearance/hub/server.py:583-584 | removes that queue only |
| Hub.ClearanceHub.BeginVerdict | src/terok_clearance/hub/server.py:606-625 | the three refusals in order, nothing consumed by a mismatch; an admitted verdict takes its binding out |
| Hub.ClearanceHub.FinishVerdict | src/terok_clearance/hub/server.py:627-652 | failure restores the binding, and the outcome goes to every queue |
| Hub.ClearanceHub.SetMute | src/terok_clearance/hub/server.py:686-713 | changes the addressed key only and returns the state in force, or refuses a key the hub does not serve |
| Hub.ClearanceHub.Mutes | src/terok_clearance/hub/server.py:715-717 | the sorted, duplicate-free listing of the mute set |
| FanOut.QueuesRefineHistory | src/terok_clearance/hub/server.py:539-584 | each queue is the last events since its subscriber joined, at most 128; received events are an in-order part of the history; received + dropped + queued = published |
| FanOut.LossNeedsFullQueue | src/terok_clearance/hub/server.py:547-550 | an event is lost only when exactly the 128 following it wait |
| FanOut.SubscriberQueue.PutDroppingOldest | src/terok_clearance/hub/server.py:546-550 | the bounded put |
| FanOut.SubscriberQueue.Get | src/terok_clearance/hub/server.py:582-582 | takes the oldest waiting event |
| Notifications.FiresAtMostOnce | src/terok_clearance/notifications/callback.py:140-164 | a click reaches the registration of the latest operation on that id, and each registration is called at most once |
| Notifications.IdsCountUp | src/terok_clearance/notifications/callback.py:120-138 | new popups are numbered 1, 2, 3, ... |
| Notifications.CallbackNotifier.Notify | src/terok_clearance/notifications/callback.py:100-138 | an update keeps its id, a new popup takes the next one even if the hook raises |
| Notifications.CallbackNotifier.OnAction | src/terok_clearance/notifications/callback.py:140-146 | the latest registration wins |
| Notifications.CallbackNotifier.Close | src/terok_clearance/notifications/callback.py:148-150 | a closed popup has no callback |
| Notifications.CallbackNotifier.Disconnect | src/terok_clearance/notifications/callback.py:152-154 | releases every callback |
| Notifications.CallbackNotifier.InvokeAction | src/terok_clearance/notifications/callback.py:156-164 | takes the callback out before it is called |
| Desk.DeskInvariant | src/terok_clearance/client/subscriber.py:442-474 | several subscribers on one notifier: one prompt per target, popup ids distinct, non-zero and issued, every callback under a prompt's id is that prompt's |
| Desk.ClickRoutesToPrompt | src/terok_clearance/client/subscriber.py:469-474 | a click sends the verdict for the prompt's current triple, and a second click sends nothing |
| PromptCallbacks.CallbackIsAFold | src/terok_clearance/client/subscriber.py:469-474 | over every run of several subscribers: a popup answers a click iff the latest of a prompt shown under it, a click on it and a purge of its prompt is the prompt |
| PromptCallbacks.PromptAnswersUnlessSpent | src/terok_clearance/client/subscriber.py:442-474 | a prompt on screen has its callback iff its popup was not clicked since a prompt was last shown there |
| PromptCallbacks.UnspentClickSends | src/terok_clearance/notifications/callback.py:156-164 | a click on such a prompt sends its current triple, once |
| PromptCallbacks.BlockedPopup | src/terok_clearance/client/subscriber.py:442-468 | an accepted block updates the popup of the prompt on its target or takes the next id; a raising hook leaves every prompt and callback |
| PromptCallbacks.OutcomeInPlace | src/terok_clearance/client/subscriber.py:483-526 | an outcome drops its own prompt, updates its popup in place, and touches nothing else |
| PromptCallbacks.NoticeTakesId | src/terok_clearance/client/subscriber.py:600-640 | a notice takes one new popup id and is never tracked |
| PromptCallbacks.PopupGates | src/terok_clearance/client/subscriber.py:363-411 | which notices, alerts and clean-ups an event brings, by category |
| PopupRuns.AlertIsAFold | src/terok_clearance/client/subscriber.py:388-406 | once tasks drain, an alert is tracked iff the category is on, the latest of the four shield events lowered the shield, and the consumer accepted an alert since the last one was closed; the last holds by itself if no hook raises |
| PopupRuns.TrackedIsAccepted | src/terok_clearance/client/subscriber.py:563-598 | in every state, drained or not, the tracked alerts are the accepted ones not closed since |
| PopupRuns.RaisingHookHidesAlert | src/terok_clearance/client/subscriber.py:574-584 | one shield_down whose alert hook raises leaves no alert |
| PopupRuns.AlertKeepsId | src/terok_clearance/client/subscriber.py:574-584 | while a container stays alerted its alert keeps one id |
| PopupRuns.RepeatCounter | src/terok_clearance/client/subscriber.py:442-468 | count and first-seen time are those of the accepted blocks since the target last had no prompt |
| SuspendedPrompts.OneLivePrompt | src/terok_clearance/client/subscriber.py:442-481 | with purges interleaving at every await, no two prompts share a target and each is filed under its own id |
| SuspendedPrompts.RaisingNotifyKeepsPrior | src/terok_clearance/client/subscriber.py:456-459 | a raising notify leaves the prior prompt unless a purge dropped it |
| SuspendedPrompts.AtomicWhenUninterrupted | src/terok_clearance/client/subscriber.py:442-468 | without interleaving the suspended handler is the atomic one |
| SubscriberModel.LiveBlock | src/terok_clearance/client/subscriber.py:476-481 | finds a prompt on the target, None exactly if there is none |
| SubscriberObject.EventSubscriber.constructor | src/terok_clearance/client/subscriber.py:286-294 | starts with nothing pending, on a shared notifier |
| SubscriberObject.EventSubscriber.HandleEvent | src/terok_clearance/client/subscriber.py:352-411 | state of subscriber and notifier after one event, keeping the popup invariant |
| SubscriberObject.EventSubscriber.HandleBlocked | src/terok_clearance/client/subscriber.py:414-474 | drops targetless blocks, reuses the live prompt, survives a raising notify |
| SubscriberObject.EventSubscriber.LiveBlockOn | src/terok_clearance/client/subscriber.py:476-481 | the search loop returns the live prompt, if any |
| SubscriberObject.EventSubscriber.HandleVerdict | src/terok_clearance/client/subscriber.py:483-526 | drops the pending entry and updates its popup in place |
| SubscriberObject.EventSubscriber.RunNextTask | src/terok_clearance/client/subscriber.py:650-654 | the oldest dispatched task runs; a verdict task yields its call |
| SubscriberObject.EventSubscriber.PurgeAll | src/terok_clearance/client/subscriber.py:547-559 | drops every prompt of the container and closes its popups, no others |
| SubscriberObject.EventSubscriber.CloseAlert | src/terok_clearance/client/subscriber.py:586-598 | closes the tracked alert, if any |
| SubscriberObject.EventSubscriber.PostAlert | src/terok_clearance/client/subscriber.py:563-584 | posts or updates the alert; a raising hook leaves the tracking as it was |
| SubscriberObject.EventSubscriber.Clicked | src/terok_clearance/client/subscriber.py:469-474 | a fired callback queues one verdict on its own triple |
| VerdictConnection.AtMostOneTransport | src/terok_clearance/verdict/client.py:55-111 | any number of concurrent callers: the open transports out of reach are exactly as many as connects overwrote; when at most one is open, iff; and no more overwritings than proxy builds that died |
| VerdictConnection.CallFate | src/terok_clearance/verdict/client.py:63-83 | among concurrent callers a call ends true iff the helper's true reply got through, false iff its false reply did or two OSErrors hit it, and never tries a third time |
| VerdictConnection.LiveProxyIsShared | src/terok_clearance/verdict/client.py:89-97 | both checks: a caller that finds a proxy, before the lock or under it, calls over it and opens nothing |
| VerdictConnection.OsErrorDropsConnection | src/terok_clearance/verdict/client.py:77-83 | an OSError drops the shared connection, and nothing else but a stop does |
| VerdictConnection.DeadBuildLeaks | src/terok_clearance/verdict/client.py:98-102 | such a death, and the next connect, leak one |
| VerdictConnection.StopClosesOrphan | src/terok_clearance/verdict/client.py:85-111 | a stop in between closes the held transport and leaks nothing |
| VerdictConnection.VerdictClient.Apply | src/terok_clearance/verdict/client.py:55-83 | case by case: a reply on the first attempt is the answer, flag and stderr; after an OSError the second attempt's is; two OSErrors are a refusal with the second text; any other error propagates; exactly what stays open out of reach |
| VerdictConnection.VerdictClient.EnsureConnected | src/terok_clearance/verdict/client.py:89-102 | connects only without a proxy, over whatever transport is held; a refused connect changes nothing, a failed build leaves the new transport held |
| VerdictConnection.VerdictClient.Disconnect | src/terok_clearance/verdict/client.py:104-111 | closes exactly the held transport |
| ClientTransport.ClearanceClient.Connect | src/terok_clearance/client/client.py:172-190 | all-or-nothing: from a closed client the open transports are exactly the fields'; over an open one, exactly which stay open |
| ClientTransport.ClearanceClient.CloseTransports | src/terok_clearance/client/client.py:192-201 | closes exactly the held transports |
| ClientTransport.ClearanceClient.Start | src/terok_clearance/client/client.py:156-170 | after one start both channels are up or nothing is open |
| ClientTransport.ClearanceClient.Stop | src/terok_clearance/client/client.py:203-211 | leaves nothing open |
| ClientTransport.ClearanceClient.RunStream | src/terok_clearance/client/client.py:300-351 | the wait after n un-poked failures in a row is min(2^n, 10) seconds, and the transports stay the fields' |
| ClientTransport.WaitLadder | src/terok_clearance/client/client.py:337-348 | the waits are 1, 2, 4, 8 and then 10 seconds, by the failures in a row |
| ClientTransport.NextWait | src/terok_clearance/client/client.py:337-348 | one turn of the back-off: reset by a poke or a success, doubled and capped otherwise |
| PangoEscaping.PangoEscape | src/terok_clearance/notifications/desktop.py:39-43 | the sequential passes equal one simultaneous per-character escape |
| PangoEscaping.UnescapeUndoes | src/terok_clearance/notifications/desktop.py:32-43 | reading the entities gives the text back |
| PangoEscaping.EscapeInjective | src/terok_clearance/notifications/desktop.py:32-43 | different texts stay different |
| PangoEscaping.NoRawMarkup | src/terok_clearance/notifications/desktop.py:23-43 | no raw `<` or `>` is left and every `&` opens an entity (section 2.4 of XML 1.0) |
| PangoEscaping.OrderMatters | src/terok_clearance/notifications/desktop.py:29-36 | escaping `&` last is right exactly on texts without `<` and `>` |
| WireSanitize.SanitizePrintable | src/terok_clearance/wire/sanitize.py:85-92 | only characters from space to tilde come out, for every cap |
| WireSanitize.LengthCap | src/terok_clearance/wire/sanitize.py:62-92 | the length bound holds iff the cap is non-negative |
| WireSanitize.NegativeCapOverflows | src/terok_clearance/wire/sanitize.py:90-91 | a negative cap yields a longer result |
| WireSanitize.IdentityOnWire | src/terok_clearance/wire/sanitize.py:87-89 | unchanged iff already from space to tilde and short enough, 256 by default |
| WireSanitize.Idempotent | src/terok_clearance/wire/sanitize.py:85-92 | sanitising twice is sanitising once, for every cap |
| WireSanitize.PositionsPreserved | src/terok_clearance/wire/sanitize.py:87-92 | each character from space to tilde keeps its position, any other becomes a space, up to the `...` marker |
| WireSanitize.MappingIsWire | src/terok_clearance/wire/sanitize.py:95-103 | keys unchanged, every value is the sanitised one and obeys the rule |

## Left out

- Varlink, D-Bus, unix sockets and their hardening, subprocess execution, JSON decoding: foreign code, seen as steps with arbitrary outcomes and faithful FIFO channels.
- `EventIngester`: line framing; its output is an arbitrary sequence of raw events.
- `DbusNotifier`, urgency hints, popup titles and bodies, identity labels: presentation.
- The terminal UI's own list, CLI verbs, config reading, logging, hub start and stop wiring.
- `parse_verdict_ttl` and `MultiSocketSubscriber` reconciliation: would only add easy members.
- `EventSubscriber.stop`: tasks are cancelled before the client is stopped, so events may still arrive; nothing is claimed about it.
- The order of Python dicts: maps have none. Only `_live_block_on` could see it, and at most one prompt ever matches there.
- A consumer hook that clicks from inside `notify`: clicks happen between handlers.
- `TypeError` for a bare string passed as `aliases` or `muted`: the types exclude it.
- VerdictConnection.VerdictClient.Apply: one caller at a time; concurrent callers are the protocol `StepLink` in the same file, which is on values. How often the helper executes a resent call is not claimed.
- ClientTransport.ClearanceClient.RunStream: runs over a given finite list of turns, since the loop itself has no end, and cancellation of the stream task is not modelled.
- HubProtocol.StreamWellFormed: a call that is aborted never answers and has no outcome on the stream, as in the code.
