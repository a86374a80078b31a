# Orbit, modelled and proved

This project models the parts of Orbit whose correctness is a matter of many steps rather than of one body: the
desktop panel as a machine of handlers shared by a poll thread and a main thread, the reconciliation of its card list,
the claim of its mark, its settings and its outline; and, from the experiments, consistent reads of a store that others
are writing, captured generations with cursors, a WebSocket client, a JSON-RPC reader, a JPEG walker, bounded output
collection, a process tree, a configuration rewriting pass, and the controller of a manual acceptance run.

| file | what it models |
|---|---|
| `WatchedStore.dfy`, `StaleGuard.dfy` | a file system as a run of states with stamps, and the double-collect read guard over it |
| `SessionOrder.dfy`, `SessionCards.dfy` | the stable order of the cards, and the in-place update of the card list |
| `PanelMachine.dfy` | the panel's handlers: hover delays, drag, detail, pages, the Stop question, Escape |
| `ReadViews.dfy` | the read-view summary between the poll thread and the main thread |
| `MarkClaim.dfy` | the claim of the mark as interleaved system calls |
| `GateProbe.dfy` | the WebSocket frame writer, the incremental reader and the matching of replies |
| `Acceptance.dfy` | the acceptance controller, over whole runs with lost, failed and successful replies |
| `Base64Url.dfy`, `Generations.dfy` | cursors, captured generations and their coordinator |
| `ProcessTree.dfy`, `JsonLines.dfy`, `Jpeg.dfy` | three loops of the host acceptance script |
| `Capture.dfy` | bounded collection of a child's output and the ladder of signals |
| `ProxyConfig.dfy` | the rewriting of an account's proxy fields |
| `Settings.dfy` | coercion, validation, saving and loading of settings |
| `PanelShape.dfy` | turning, the neck outline, easing and the morph |
| `PyText.dfy`, `Common.dfy` | what several of them share of Python's strings, and an option type |

Objects that update their fields are classes whose methods are proved against functions on states, and the promises
about whole runs are proved about those functions. Threads, processes and other writers are steps of a machine, so a
statement about all runs is a statement about all interleavings. Calls into libraries, the toolkit, the network and
other programs are parameters or events with every outcome allowed.

## Where a promise does not hold as it is worded

- After a drop an idle pointer is not supposed to open the cards (desktop/panel.py:742-745). A delay to open that was
  already running when the mark was picked up is not stopped by the drag, so a mark dropped within it opens them.
  `DropKeepsCardsShut` has the exact condition and `QuickDropOpens` a run.
- Claiming the mark is meant to leave one panel (desktop/panel_broker.py:315-326). Two overlapping recoveries of one
  stale socket file can both become owners; `OverlappingClaimsExactly` has the exact condition. A claim that gives up
  draws a panel too (desktop/panel.py:1512-1516), so recoveries that remove only the file they probed are not enough
  where a process may end meanwhile: `TwoPanels` is a run and `CarefulRunsExactly` the condition.
- The acceptance controller checks `actions` when it is given and `action` otherwise
  (experiments/efficiency-native-acceptance.ts:226), so an `action` beside `actions` is sent without being looked at.
  `AllIsChecked` and `SentOnTarget` have the exact conditions; the safety of whole runs is proved for the actions the
  controller looks at, and `OneCloseCarried` says what is left of it for everything carried. The broker refuses a
  request that gives both (src/session.ts:924-925), so what the controller lets through there fails.
- A card made inert while its list is in use stays inert when its session comes back
  (desktop/panel_sessions.py:273-278); `AnswersExactly` says when a card answers.
- Creation order keeps cards in place only when creation times differ; `OrderSurvivesRegrouping` is the equivalence.
- A frame of 2^32 bytes or more is written with a length its header cannot say; `Frame` is an equivalence.
- The JPEG walk takes the standalone marker TEM for a segment. `StandardImage` has the exact condition for every image,
  and `ShortStandardImage` for images below 65280 bytes.
- Two equal digests are meant to show that the owner changed nothing while a generation was opened
  (experiments/codex-paginated-generation-prototype.py:124-125). They do for every file they tell of, but the captured
  rollout need not be one: `StoodStillExactly` is the equivalence, with the missing check as its condition, and
  `CameAndWent` gives an opening for every thread.

## Model

| member | source | states |
|---|---|---|
| StaleGuard.GuardedRead | experiments/codex-paginated-stale-guard.ts:93-107 | whatever is delivered, a failure of the read included, was computed on one tree that did not change at any instant of the read; any instant at which the tree differs is reported stale; a tree nobody touches is served exactly when it is acceptable, is never reported stale, and is refused for what is wrong with it |
| StaleGuard.FingerprintTree | experiments/codex-paginated-stale-guard.ts:59-91 | a fingerprinted tree is one pass over it; while nothing moves it succeeds exactly on the trees within the budgets and the layout, its result is the truth, every entry once with its metadata and the digest of its whole content, and a failure names what is wrong with the tree |
| StaleGuard.AcceptableExactly | experiments/codex-paginated-stale-guard.ts:8-91 | a tree is acceptable exactly when its root holds both databases and the sessions and nothing unexpected, every file under the sessions is a `.jsonl`, nothing is below the eighth level but files, and its files, counted one by one, are at most 1000 and 268435456 bytes |
| StaleGuard.DoubleCollect | experiments/codex-paginated-stale-guard.ts:93-107 | when two passes agree, then at every instant between them the whole tree was exactly what they recorded, bytes included |
| StaleGuard.RecordedStill | experiments/codex-paginated-stale-guard.ts:59-91 | when two passes agree, every entry they recorded kept its binding, metadata and content from its first look in the earlier pass to its last in the later |
| StaleGuard.NothingElse | experiments/codex-paginated-stale-guard.ts:59-91 | nothing the passes did not record was in the tree at any instant between two agreeing passes |
| StaleGuard.PassIsTruth | experiments/codex-paginated-stale-guard.ts:59-91 | on a tree that does not move, a pass is the true fingerprint of the whole tree, and of admitted entries only |
| StaleGuard.FoundWhileFrozen | experiments/codex-paginated-stale-guard.ts:79-84 | on a tree that does not move, a pass misses no entry, however deep |
| StaleGuard.Fingerprinter.HashStableFile | experiments/codex-paginated-stale-guard.ts:32-57 | a successful hash names an instant at which the path led to exactly the bytes digested, within the file and byte budgets; on a file nobody touches it fails only over a budget, and says so |
| StaleGuard.Fingerprinter.ReadWhole | experiments/codex-paginated-stale-guard.ts:44-52 | the read loop ends; every byte digested was at its position at some instant of the loop, and too few only when the file was shorter |
| StaleGuard.Fingerprinter.ListDirectory | experiments/codex-paginated-stale-guard.ts:73-77 | a listing read a few names at a time gives each name as it was at some instant of it, as long as the path stays where it led; a failure shows movement or an unexpected file |
| StaleGuard.ListedMeans | experiments/codex-paginated-stale-guard.ts:73-84 | in a directory that was still, the names its listing gave were there all along, and no others |
| StaleGuard.Fingerprinter.Record | experiments/codex-paginated-stale-guard.ts:62-84 | recording an entry adds it and all below it to what was recorded before, each once and as looked at; a failure shows that something moved or names what is wrong with the tree |
| WatchedStore.ChildStill | experiments/codex-paginated-stale-guard.ts:79-84 | an entry of a directory that was still, whose own time of change is old, was still too |
| WatchedStore.EntriesStill | experiments/codex-paginated-stale-guard.ts:73-78 | while a directory is still, no entry appears in it, leaves it or is replaced |
| WatchedStore.InodeStill | experiments/codex-paginated-stale-guard.ts:28-30 | an inode whose time of change precedes an instant is the same at every instant from there on |
| WatchedStore.TypesExactly | experiments/codex-paginated-stale-guard.ts:65-71 | which mode bits make an entry a file or a directory |
| SessionOrder.StableOrderSorts | desktop/panel_broker.py:188-192 | the cards' order is a permutation of the sessions, sorted by creation time |
| SessionOrder.StableOrderKeepsTies | desktop/panel_broker.py:188-192 | sessions created at the same time keep the order they came in |
| SessionOrder.StableOrderIsStable | desktop/panel_broker.py:188-192 | the order told by places alone: each session stands at one place, an earlier one before a later one, and two of the same time as they came |
| SessionOrder.OrderSurvivesRegrouping | desktop/panel_broker.py:188-192 | the broker's regrouping of sessions never moves a card exactly when creation times are distinct |
| SessionOrder.SwapReordersTies | desktop/panel_broker.py:188-192 | two sessions created at the same time can trade places on the list |
| SessionOrder.EndingMovesNoCard | desktop/panel_broker.py:188-192 | a session that moves from open to ended keeps every card in place when creation times are distinct |
| SessionCards.SessionList.Update | desktop/panel_sessions.py:255-284 | unless the list is in use and shows something, the cards become every session in the given order, and otherwise stay as they are; `changed` is whether that differs from what was shown; a surviving session keeps its card object and a new one gets a fresh card; every card is redrawn from its session or made inert |
| SessionCards.AnswersExactly | desktop/panel_sessions.py:255-284 | over any run of refreshes, a card answers the pointer exactly when its session was given in every refresh since the card was made: one refresh without it, while the list is in use, leaves the card inert for as long as it stays |
| SessionCards.RefreshedIsDrawn | desktop/panel_sessions.py:255-284 | a refresh draws each card of the list from its session, and only makes a card without one inert |
| SessionCards.EachCardWasMade | desktop/panel_sessions.py:264-279 | every card on the list was made by one of the refreshes and has stayed since |
| SessionCards.SessionList.Place | desktop/panel_sessions.py:264-272 | one turn of the placing loop puts the planned card behind the one placed last, creating it only when it is not there |
| SessionCards.SessionList.RemoveGone | desktop/panel_sessions.py:280-281 | the cards the plan leaves out are dropped and no other, after which the list is the plan |
| SessionCards.SessionList.PlaceAll | desktop/panel_sessions.py:264-279 | the placing loop ends with the plan in front, in order, every planned card drawn, and no card replaced |
| SessionCards.Moving | desktop/panel_sessions.py:270-271 | moving a card that stands further on to behind the one placed last keeps the list consistent and what is placed |
| SessionCards.Putting | desktop/panel_sessions.py:267-269 | a new card put anywhere keeps one card for each identifier |
| SessionCards.Taking | desktop/panel_sessions.py:280-281 | taking a card out keeps dictionary and children in agreement |
| SessionCards.AllDrawnIs | desktop/panel_sessions.py:273-278 | after the loop exactly the planned cards show their session, and the others what they showed before |
| SessionCards.ByIdFinds | desktop/panel_sessions.py:260-260 | the lookup finds a session under an identifier exactly when the session is in the list |
| PanelMachine.StepKeepsSound | desktop/panel.py:1112-1170 | every handler keeps: a drag in progress means collapsed, an open panel has no rendering left to catch up on, detail and page are never both open and the visible child is the open one, every live hover delay is held by its field and at most one is pending |
| PanelMachine.RunKeepsSound | desktop/panel.py:672-745 | whatever handlers run in whatever order, those invariants hold in every state reached |
| PanelMachine.RefreshKeepsQuestion | desktop/panel.py:1053-1071 | a refresh shows everyone, unless the list is in use and shows something; it leaves a Stop question armed exactly when its session is listed and no card moved, and a detail open exactly when its session is listed |
| PanelMachine.EveryoneIsListed | desktop/panel_broker.py:188-192 | everyone is each open and ended session at one place, earlier ones before later ones, and ties as they came |
| PanelMachine.AskingArms | desktop/panel.py:1275-1280 | asking to stop a session arms the question for that session exactly when it is listed and no card moved; no other event opens one, or changes whom one is about |
| PanelMachine.ViewsExactly | desktop/panel.py:672-1448 | for every event in every sound state: exactly which cards are shown afterwards, which question is armed, and which detail or page is open |
| PanelMachine.StepIsSimple | desktop/panel.py:672-1448 | for every event: the fields it sets straight out, settings, press, pointer and sessions among them, and that every other event leaves them |
| PanelMachine.EndingMovesNothing | desktop/panel.py:1034-1035 | a session that ends moves no card and disarms no question when creation times are distinct |
| PanelMachine.EscapeClimbs | desktop/panel.py:1264-1273 | each Escape while expanded strictly decreases what there is to close |
| PanelMachine.EnoughEscapesCollapse | desktop/panel.py:1264-1273 | as many Escapes as there is to close collapse the panel, whatever the toolkit reports meanwhile |
| PanelMachine.ThreeEscapesCollapse | desktop/panel.py:1264-1273 | from any state a run reaches, three uninterrupted Escapes leave the panel collapsed |
| PanelMachine.OpenedAndClosed | desktop/panel.py:1149-1170 | exactly which events open a collapsed panel and which collapse an open one: hover, with a question, a detail or a page open, never does |
| PanelMachine.PointerStartsDelay | desktop/panel.py:1112-1129 | a pointer that comes or goes ends the pending delay and starts the one of its kind, unless a drag or the wait for leaving refuses; nothing else changes |
| PanelMachine.OnlyPointerStarts | desktop/panel.py:1112-1147 | where the hand is not reported, only a dropped mark begins to wait for leaving, and a delay only ends, by firing |
| PanelMachine.PointerDecidesAgain | desktop/panel.py:1252-1280 | closing a question, a detail or a page under a hand reported inside or outside is followed by just what its coming or going would do |
| PanelMachine.ShapeTells | desktop/panel_broker.py:371-378 | the shape of a status tells each session's task, state and face, of every session and of no other, and whether the broker was reached |
| PanelMachine.DropKeepsCardsShut | desktop/panel.py:736-745 | an idle pointer opens no cards after a drop exactly when no delay to open was still running at the drop |
| PanelMachine.QuickDropOpens | desktop/panel.py:736-745 | a mark picked up and dropped within the opening delay opens its cards although the hand has not left |
| PanelMachine.WaitingStaysShut | desktop/panel.py:1112-1118 | with no delay pending, nothing but leaving, a new press or an explicit request opens a panel that waits for the hand to leave |
| PanelMachine.Panel.HoverChanged | desktop/panel.py:1112-1129 | both delays are taken off the main loop, live sources only, and one is started, unless a drag or the wait for leaving refuses |
| PanelMachine.Panel.SetExpanded | desktop/panel.py:1149-1170 | only opening is refused during a drag, and collapsing closes question, detail and page |
| PanelMachine.Panel.RefreshViews | desktop/panel.py:1053-1071 | the refresh takes the panel's state to the machine's refreshed state |
| PanelMachine.Panel.Fire | desktop/panel.py:1131-1147 | an expired delay opens, or closes unless something is pinned or the pointer is still inside |
| PanelMachine.Panel.DragUpdate | desktop/panel.py:681-688 | a press that travels picks the mark up and collapses the panel first |
| PanelMachine.Panel.DragEnd | desktop/panel.py:690-703 | a press that never travelled opens the list, a drop docks the mark and waits for the hand to leave |
| PanelMachine.Panel.KeyPressed | desktop/panel.py:1264-1273 | Escape closes the question, else the detail or page, else the panel, and is handled exactly when expanded |
| PanelMachine.Panel.ShowList | desktop/panel.py:1252-1262 | closing a detail or a page lets the pointer decide again |
| PanelMachine.Panel.ApplyStatus | desktop/panel.py:911-929 | a status whose shape differs from the last is rendered, at once when open and otherwise at the next opening; one of the same shape refreshes an open panel |
| PanelMachine.Panel.SessionShape | desktop/panel_broker.py:371-378 | the loop keeps what the mark shows of each open session, the later of two under one identifier |
| PanelMachine.Panel.ReloadSettings | desktop/panel.py:1439-1448 | stored settings that differ from the panel's own dock the mark where they say and render it; settings that are the same change nothing |
| PanelMachine.OwnSettingsAreNoChange | desktop/panel.py:690-703 | after a drop, whatever happens until the panel's own settings are stored, finding them in the file changes nothing |
| PanelMachine.RefreshCards | desktop/panel.py:1058-1063 | run on a real list of cards, a refresh leaves exactly the identifiers and the question the machine says and keeps every surviving card, and of the listed sessions exactly the one still asked about, unless it is over, shows the Stop question on its card |
| PanelMachine.Panel.Handle | desktop/panel.py:672-1448 | whichever handler runs, the panel object goes exactly where the machine goes and stays sound |
| ReadViews.StepKeepsSound | desktop/panel.py:876-916 | every single access of the poll and the main thread keeps the freshness of samples in flight |
| ReadViews.SummaryIsFresh | desktop/panel.py:876-916 | over every interleaving, outside set_expanded the summary is available only while expanded and only from a sample asked for and answered after the last expand or collapse |
| ReadViews.ShownExactlyWhenUndisturbed | desktop/panel.py:876-916 | whatever was queued before a turn of the poll, what the turn sampled is shown exactly when nothing expanded or collapsed the panel between the reading of the generation and the delivery |
| ReadViews.SampleWasAnswered | desktop/panel.py:876-916 | over every interleaving, every sample in flight or shown was asked for by a reading of the sessions and is word for word what was answered after it |
| ReadViews.TurnHandsOver | desktop/panel.py:876-900 | a turn whose sessions are read hands over the generation it began with, and a sample of just what was answered exactly when the panel was expanded as they had been read |
| ReadViews.FailedTurnHandsOver | desktop/panel.py:876-900 | a turn that cannot read the sessions, or is interrupted, hands over the generation it began with, no sample and an unreachable broker |
| ReadViews.GenerationCountsFlips | desktop/panel.py:1157-1160 | the generation is unchanged over a stretch exactly when no expand or collapse began in it, and counts them |
| ReadViews.StaleOnlyInside | desktop/panel.py:1149-1161 | an expand or collapse leaves no summary behind, whatever the poll does between its three writes |
| MarkClaim.CarefulRunsHaveOneOwner | desktop/panel_broker.py:315-358 | over any interleaving of claims and exits in which no recovery removes a file other than the one it probed, at most one live process owns the mark and a message sent to the path reaches it |
| MarkClaim.CarefulClaimsAreExclusive | desktop/panel_broker.py:315-358 | while no process ends, such runs leave at most one panel, a claim that gave up and draws without the mark included |
| MarkClaim.TwoPanels | desktop/panel.py:1512-1518 | from a stale file, one such run with a single exit ends with a claim that gave up and a claim that owns the mark, and both draw a panel |
| MarkClaim.CarefulRunsExactly | desktop/panel_broker.py:315-358 | with four processes or more, all such runs leave at most one panel exactly when no process may end |
| MarkClaim.OneAtATimeIsExclusive | desktop/panel_broker.py:315-358 | claims taken one at a time, with processes ending at any point and any file left before, leave at most one panel, and none of them gives up |
| MarkClaim.OverlappingClaimsAreExclusive | desktop/panel_broker.py:315-358 | with no stale file and no exits, claims may overlap in any way, leave at most one panel, and none of them gives up |
| MarkClaim.OverlappingClaimsExactly | desktop/panel_broker.py:334-358 | overlapping claims leave at most one panel over every interleaving exactly when no file is there at the start: two recoveries of one stale file can both end as owners |
| MarkClaim.ClaimAlone | desktop/panel_broker.py:334-358 | a claim nobody interferes with is handed over against a live holder and changes nothing else, and otherwise takes the mark under a file of its own, stale file or not |
| MarkClaim.CarefulKeepsHeld | desktop/panel_broker.py:334-358 | each system call keeps: an open bound socket has its own file at the path, and no claim is about to remove a file that answers |
| MarkClaim.Desk.ClaimTheMark | desktop/panel_broker.py:333-358 | the two-attempt loop, run alone, ends as the interleaved machine does |
| GateProbe.Frame | experiments/codex-paginated-gate-bridge-probe.ts:77-86 | exactly below 2^32 bytes the frame carries the payload as sections 5.2 and 5.3 of RFC 6455 lay it out, bit by bit: final text, masked, the length in the fewest bytes, and of payload byte i flipped just the bits set in byte i mod 4 of the key; the last part holds of every payload |
| GateProbe.HeaderSays | experiments/codex-paginated-gate-bridge-probe.ts:79-83 | the length field says the payload's length, modulo 2^32 in its long form |
| GateProbe.MaskedTwice | experiments/codex-paginated-gate-bridge-probe.ts:84-85 | masking twice with one key gives the payload back |
| GateProbe.MaskedFlips | experiments/codex-paginated-gate-bridge-probe.ts:84-85 | masking with a key gives exactly the bytes that differ from the payload's in the bits the key's byte for the place has set |
| GateProbe.ReceivedExactly | experiments/codex-paginated-gate-bridge-probe.ts:77-86 | a server following the standard receives a payload from exactly the frames that carry it, bit by bit |
| GateProbe.StreamIsDelivered | experiments/codex-paginated-gate-bridge-probe.ts:29-66 | for every split of an upgrade response and text frames into reads, with calls made and given up in between, the connection opens and every payload is parsed, once and in order, with nothing left over |
| GateProbe.HeadEndExactly | experiments/codex-paginated-gate-bridge-probe.ts:32-33 | the head of the response ends at the first blank line, when there is one |
| GateProbe.AcceptsExactly | experiments/codex-paginated-gate-bridge-probe.ts:34-35 | the upgrade is accepted exactly when the head begins with the bytes of `HTTP/1.1 101`, their eighth bit apart |
| GateProbe.RefusedExactly | experiments/codex-paginated-gate-bridge-probe.ts:31-45 | an unfinished head waits, one that is not accepted and a frame that is no unmasked text settle the opening as rejected and consume nothing, and an accepted one resolves it |
| GateProbe.CallIsNumbered | experiments/codex-paginated-gate-bridge-probe.ts:70-75 | a call goes out under the next number exactly when the upgrade was accepted and the reader lives, and changes nothing else |
| GateProbe.ChunkingDoesNotMatter | experiments/codex-paginated-gate-bridge-probe.ts:29-66 | for any bytes at all, the reader's whole state after any split is its state after one read of the joined bytes |
| GateProbe.FedInTwo | experiments/codex-paginated-gate-bridge-probe.ts:29-66 | one read or two make no difference, rejected frames and thrown exceptions included |
| GateProbe.EachCallResolvedAtMostOnce | experiments/codex-paginated-gate-bridge-probe.ts:59-64 | over every run each call is resolved at most once, by a parsed message carrying its number |
| GateProbe.EachCallIsGivenTheFirst | experiments/codex-paginated-gate-bridge-probe.ts:55-76 | over every run a call is given the first message with its number that is parsed after the call and before its timer gives it up, and nothing else; it is given nothing exactly when there is none |
| GateProbe.RunAnswers | experiments/codex-paginated-gate-bridge-probe.ts:55-76 | from any state on, a pending call stays pending exactly while no message with its number is parsed, and a call that is not pending is given nothing |
| GateProbe.Probe.OnData | experiments/codex-paginated-gate-bridge-probe.ts:29-66 | the data handler takes the probe's fields to the reader's next state |
| GateProbe.Probe.Send | experiments/codex-paginated-gate-bridge-probe.ts:70-87 | a call is numbered, remembered and written as a frame that carries what was rendered under that number, exactly below 2^32 bytes |
| Acceptance.Controller.Run | experiments/efficiency-native-acceptance.ts:306-353 | over every run, whatever is requested and however the tools answer: each request in turn sends exactly what `Dispatch` says, every request sent is one the log before it permits, before the first opening came the three preflights, of which the second listed the windows that were there, and last comes the cleanup: at most one closing, of a live session, and the stop of all that is this conversation's |
| Acceptance.OneClose | experiments/efficiency-native-acceptance.ts:231-234 | at most one request that closes the window is ever sent |
| Acceptance.NothingAfterDoubt | experiments/efficiency-native-acceptance.ts:52-132 | no opening, handoff, action or resumption is sent after an effect that is uncertain, the acknowledgement of a window that was there before among them |
| Acceptance.NothingAfterFailure | experiments/efficiency-native-acceptance.ts:52-64 | after an opening, handoff, action or resumption that failed, went unanswered or could not be recorded, none of the four is sent again |
| Acceptance.OpenedExactly | experiments/efficiency-native-acceptance.ts:129-133 | an opening acknowledges exactly a Wayland window on the chosen workspace with a vouched identity, an address of one to sixteen hexadecimal digits after `0x`, an identity of as many and a positive process number |
| Acceptance.GivenExactly | experiments/efficiency-native-acceptance.ts:137-142 | a handoff acknowledges exactly a session scoped to the whole of one client on the chosen workspace, under two handles of 32 hexadecimal digits |
| Acceptance.SafeExactly | experiments/efficiency-native-acceptance.ts:112-353 | a log keeps the promise exactly when every request in it fits what came before |
| Acceptance.DoubtfulExactly | experiments/efficiency-native-acceptance.ts:52-64 | there is doubt exactly when some effect of the log was uncertain as it came |
| Acceptance.ClosedExactly | experiments/efficiency-native-acceptance.ts:231-234 | a closing was attempted exactly when some request of the log carries one |
| Acceptance.WindowsExactly | experiments/efficiency-native-acceptance.ts:128-135 | a window is acknowledged exactly when some opening of the log acknowledged it |
| Acceptance.OpenArgsExactly | experiments/efficiency-native-acceptance.ts:195-196 | the arguments of openings are exactly those the openings of the log carry |
| Acceptance.ActiveExactly | experiments/efficiency-native-acceptance.ts:137-145 | a session is live with some handles exactly when the last handoff that acknowledged it gave those, and no acknowledged stop, its own or of everything, came after |
| Acceptance.HandoffIsNew | experiments/efficiency-native-acceptance.ts:128-135 | whatever is handed over is the one window that openings acknowledged, and was not listed among the candidates before |
| Acceptance.OneOpening | experiments/efficiency-native-acceptance.ts:195-196 | every opening sent carries the same arguments |
| Acceptance.OneSession | experiments/efficiency-native-acceptance.ts:217-217 | at most one acknowledged session is unstopped |
| Acceptance.SentKeepsTracks | experiments/efficiency-native-acceptance.ts:112-159 | sending and receiving keeps what the controller's fields say about the log: quarantine, fingerprint, closing, opened window, live sessions |
| Acceptance.Controller.Invoke | experiments/efficiency-native-acceptance.ts:112-159 | one request is sent exactly when use is enabled and it is not quarantined, and is logged once |
| Acceptance.Controller.Acknowledge | experiments/efficiency-native-acceptance.ts:128-143 | a reply is accepted exactly when it names a new window or the one already had, and handles of the expected shape |
| Acceptance.Controller.DispatchAct | experiments/efficiency-native-acceptance.ts:224-237 | an input request is sent exactly when it is on the session's own window, closes at most alone and once, and use is enabled |
| Acceptance.Controller.CheckActions | experiments/efficiency-native-acceptance.ts:228-236 | the loop over the actions lets through exactly those on target, with a closing only alone, once and without capture |
| Acceptance.Controller.Dispatch | experiments/efficiency-native-acceptance.ts:185-302 | of every request, exactly what it sends: an opening or handoff what those contracts say, and any other just itself, exactly when admitted and enabled; none that changes anything after doubt, and no stop before the opened window was closed unless something is uncertain |
| Acceptance.Controller.Cleanup | experiments/efficiency-native-acceptance.ts:338-353 | what is sent at the end, entry by entry: when nothing is uncertain, a window was opened, no closing was attempted and a session is live, and use is enabled at that answer, one action that closes that session's window; and last, exactly when use is enabled, a stop with scope `mine` |
| Acceptance.Controller.CloseLive | experiments/efficiency-native-acceptance.ts:344-352 | the loop over the sessions attempts the closing for one live session exactly when there is one and closing is due, and then no second |
| Acceptance.Controller.CloseOne | experiments/efficiency-native-acceptance.ts:345-351 | the attempt is recorded before it is made, and sends the session's own handles exactly when use is enabled at both questions |
| Acceptance.StoppedIsOver | experiments/efficiency-native-acceptance.ts:353-354 | an acknowledged stop of the conversation leaves no session live |
| Acceptance.Controller.Calculator | experiments/efficiency-native-acceptance.ts:170-179 | exactly one discovery is sent when use is enabled, and it succeeds exactly on a complete answer with one registration and nothing but process numbers, stopped or running the window's process as asked; nothing the controller decides by changes |
| Acceptance.Controller.CandidateWindows | experiments/efficiency-native-acceptance.ts:160-169 | exactly one listing is sent when use is enabled, and its candidates are taken exactly when it is acknowledged for the workspace and each has an address and identity of the expected shape |
| Acceptance.Controller.Displayed | experiments/efficiency-native-acceptance.ts:199-212 | exactly one look at the monitors is sent when use is enabled, and it succeeds exactly when the workspace is on a connected monitor that is not focused, and on none that is |
| Acceptance.FoundExactly | experiments/efficiency-native-acceptance.ts:171-178 | what discovery has to say, word for word: complete, and exactly one entry is the calculator, by its name or a registration, verified, with process numbers only, and stopped or running the process it was opened as |
| Acceptance.BesideExactly | experiments/efficiency-native-acceptance.ts:199-213 | what the monitors have to say, word for word: 1 to 64 of them, each described under a name of its own, the workspace on one without focus and on none with it |
| Acceptance.NamedExactly | experiments/efficiency-native-acceptance.ts:161-168 | what the candidates have to say, word for word: those of the workspace, each under an address and an identity in hexadecimal digits |
| Acceptance.Controller.DispatchOpen | experiments/efficiency-native-acceptance.ts:194-216 | what an opening sends, request by request: a first one the three preflights and itself, or none when one of them fails; a repeated one itself exactly when it is the same |
| Acceptance.Controller.FirstOpening | experiments/efficiency-native-acceptance.ts:194-216 | a first opening goes out, its arguments recorded, right behind the three preflights, exactly when all three let it and use is enabled; otherwise none goes out and none is recorded |
| Acceptance.Controller.DispatchHandoff | experiments/efficiency-native-acceptance.ts:217-223 | what a handoff sends, request by request: discovery, candidates and itself, exactly when it names the opened window, no session is live and both still show the window |
| Acceptance.AllIsChecked | experiments/efficiency-native-acceptance.ts:226-227 | the controller looks at every action a request carries exactly when the request does not carry both `action` and `actions` |
| Acceptance.CarriedOnTarget | experiments/efficiency-native-acceptance.ts:226-234 | when what is looked at is on target, all that a request carries is, exactly unless it carries both fields and the action beside the others is off target |
| Acceptance.SentOnTarget | experiments/efficiency-native-acceptance.ts:224-237 | of every request ever sent: all it carries is on its session's own window exactly unless it carries both fields and the action beside the others is off target |
| Acceptance.Controller.StrayActionPasses | experiments/efficiency-native-acceptance.ts:226-227 | an `action` beside `actions` is looked at by nobody: the request is let through as without it |
| Acceptance.OneCloseCarried | experiments/efficiency-native-acceptance.ts:226-234 | of all requests sent, two carry a closing anywhere only if one of the closings is an action beside `actions` |
| Base64Url.RoundTrip | experiments/codex-paginated-generation-prototype.py:146-164 | unpadded base64url of section 5 of RFC 4648 is decoded back to the same bytes, by a lenient decoder given "===" more |
| Base64Url.DigitsAreBits | experiments/codex-paginated-generation-prototype.py:162-163 | the encoding has as few digits as hold the bits, and the n-th is the one of section 5 of RFC 4648 for the n-th six bits |
| Generations.CursorsStayWithTheirToken | experiments/codex-paginated-generation-prototype.py:142-151 | a cursor is accepted by the token that issued it, giving its mark back, and by no other token |
| Generations.RunKeepsRegistered | experiments/codex-paginated-generation-prototype.py:57-169 | over every run snapshot directories are exactly those of registered tokens, failed openings included |
| Generations.FollowingEnumerates | experiments/codex-paginated-generation-prototype.py:137-165 | whatever happens in between, following the cursors of one token gives the captured turns from the first on, once each and in the order of the rollout's lines, and all of them when it ends |
| Generations.FollowingEnds | experiments/codex-paginated-generation-prototype.py:137-165 | while the owner lives and nobody disturbs the generation, a client that asks for as many pages as there are turns, and for one at least, has received them all, in the order of the rollout's lines |
| Generations.TurnsAreDelivered | experiments/codex-paginated-generation-prototype.py:155-157 | the turns in the asked-for order are, by position: the n-th of them stands at the n-th line that holds a turn, and no line that holds one is passed over |
| Generations.CapturedTurnsAreDelivered | experiments/codex-paginated-generation-prototype.py:57-165 | whatever the owner writes while a generation is opened or later, what is delivered under its token is the turns of the rollout as read, the n-th at the n-th line that holds one, and the owner had saved that rollout at that path up to that size and ordinal at every instant between the two digests |
| Generations.SourceStoodStill | experiments/codex-paginated-generation-prototype.py:57-131 | a registered generation holds the databases as the owner had them at every instant between the digests, and the rollout as it was read, which the owner had all that time if the first digest found it |
| Generations.StoodStillExactly | experiments/codex-paginated-generation-prototype.py:64-125 | two equal digests show that the captured rollout stood still between them exactly when they tell of it: otherwise the same digests enclose an opening of the same lines whose rollout came and went |
| Generations.DigestedStill | experiments/codex-paginated-generation-prototype.py:64-125 | a file that two equal digests tell of was the same at every instant between them |
| Generations.CameAndWent | experiments/codex-paginated-generation-prototype.py:64-128 | for every thread there is an opening whose rollout neither digest finds and which is registered all the same |
| Generations.Coordinator.OpenGeneration | experiments/codex-paginated-generation-prototype.py:57-135 | an opening registers a token with its directory exactly when every check passes and both digests are the same, or fails and leaves neither |
| Generations.RegisteredExactly | experiments/codex-paginated-generation-prototype.py:57-135 | a token is registered, for 30 seconds, exactly when the owner lives and took two turns, both digests agree, nothing raised, the directory is new and the thread can be captured; otherwise nothing changes |
| Generations.FoundExactly | experiments/codex-paginated-generation-prototype.py:69-114 | a thread can be captured exactly when it is saved, paginated and not archived, its rollout lies plainly under the sessions by its own name, unlinked and within 64 MiB, every line counts on from zero, the first begins this thread, and the checkpoint is its size and count |
| Generations.PagedExactly | experiments/codex-paginated-generation-prototype.py:137-164 | a page is given exactly for a registered token before its time, while the owner lives, under that token's own cursor or none, of a copy unchanged before and after; an expired token is forgotten |
| Generations.EventExactly | experiments/codex-paginated-generation-prototype.py:57-169 | a token stays registered exactly until it is closed or found expired, and under its own generation; its copy changes only where somebody writes into it |
| Generations.OwnerTells | experiments/codex-paginated-generation-prototype.py:46-55 | the owner lives until it ends, and its two turns are two it saved before |
| Generations.TextExactly | experiments/codex-paginated-generation-prototype.py:150-152 | a cursor decodes to text exactly when every byte is below 128, byte by byte |
| Generations.Coordinator.NoGaps | experiments/codex-paginated-generation-prototype.py:96-109 | the loop accepts exactly the rollouts whose ordinals count from zero without a gap and whose first line begins this very thread |
| Generations.Coordinator.Select | experiments/codex-paginated-generation-prototype.py:69-113 | the checks select lines exactly for an active thread with a whole rollout of its own under the sessions directory that the checkpoint agrees with |
| Generations.Coordinator.ReadOne | experiments/codex-paginated-generation-prototype.py:137-165 | a page is read from the captured copy, and only when it is what was captured, before and after |
| Generations.Coordinator.CloseGeneration | experiments/codex-paginated-generation-prototype.py:166-169 | closing forgets token and directory together |
| ProcessTree.Below | experiments/host-action-acceptance.py:294-310 | for every parent table, cyclic ones included, the fixpoint loop ends with exactly the recorded descendants of the root, without the root, each once and in increasing order |
| JsonLines.LinesAreHeard | experiments/host-action-acceptance.py:96-111 | for every split of a stream into reads, the messages are those of its non-empty lines in order, up to the first that cannot be read, and the buffer is the unfinished line |
| JsonLines.HeardInOrder | experiments/host-action-acceptance.py:96-111 | line by line: the messages and the items are those of the lines up to the first that cannot be read, each once and in the order of the lines, and there is an exception exactly when there is such a line |
| JsonLines.WaitedTells | experiments/host-action-acceptance.py:96-101 | however long a call waits, it has read just the pieces that came, and the end of the stream is an exception behind them |
| JsonLines.ChunksDoNotMatter | experiments/host-action-acceptance.py:96-111 | for any bytes, the pieces make no difference to messages, items, exceptions or the buffer |
| JsonLines.JsonRpc.Pump | experiments/host-action-acceptance.py:96-111 | one pump takes the reader's fields to its next state |
| JsonLines.JsonRpc.Call | experiments/host-action-acceptance.py:122-133 | a call takes the earliest message with its number, as soon as there is one, leaves all others in order, gives back its result, and fails exactly on an error, a missing result, an exception or the deadline |
| JsonLines.JsonRpc.Earliest | experiments/host-action-acceptance.py:127-128 | the scan finds the first message with a number, or that there is none |
| Jpeg.DimensionsExactly | experiments/host-action-acceptance.py:326-342 | the walk gives a size exactly for images that begin with segments it passes over, fill bytes and standalone markers allowed, up to a first SOF0, SOF1 or SOF2 header of that size (sections B.1.1 and B.2.2 of ITU-T T.81) |
| Jpeg.WalkExactly | experiments/host-action-acceptance.py:326-342 | the same from any offset: what the walk gives from there is the size of exactly such segments and header beginning there |
| Jpeg.StandardImage | experiments/host-action-acceptance.py:326-342 | an image of any size made of well-formed segments, TEM among the standalone markers, up to a frame header: without TEM the walk is right; with it, exactly when, where the two bytes behind the first TEM lead as a length, other segments and a header of the same size happen to begin |
| Jpeg.ShortStandardImage | experiments/host-action-acceptance.py:326-342 | below 65280 bytes such an image is given its size exactly when it has no TEM |
| Jpeg.TemLands | experiments/host-action-acceptance.py:334-340 | where the walk goes on after a TEM |
| Jpeg.Dimensions | experiments/host-action-acceptance.py:326-342 | the loop ends, for every image, with what the walk gives |
| Jpeg.TurnExactly | experiments/host-action-acceptance.py:333-341 | a marker leads on by itself exactly when it is RST0 to RST7, SOI or EOI, to a size exactly when it is SOF0 to SOF2 with a length that fits, and past its length otherwise |
| Jpeg.SizeExactly | experiments/host-action-acceptance.py:340-340 | the size is read as big-endian numbers, width behind height, of what there is of them |
| Jpeg.TemIsRefused | experiments/host-action-acceptance.py:334-337 | an image with the standalone marker TEM before its frame header, and less than 65280 bytes after it, is refused |
| Jpeg.WalkReaches | experiments/host-action-acceptance.py:326-342 | an image made of passed segments and then a frame header is walked to that header |
| Capture.AdmittedKeeps | experiments/capture-diagnostic-command.ts:44-59 | a chunk keeps what is kept a prefix of what the child wrote, within the bound |
| Capture.Command.Collect | experiments/capture-diagnostic-command.ts:50-58 | what fits is kept behind what was kept; a chunk that does not fit is cut at the bound, recorded as an error of its pipe and ends the collector; nothing else changes |
| Capture.Command.End | experiments/capture-diagnostic-command.ts:49-50 | a stream that ends without having been cancelled is complete, and one that was cancelled is not |
| Capture.Command.Exit | experiments/capture-diagnostic-command.ts:64-66 | the exit is confirmed by its code, or its loss is recorded as a failure |
| Capture.Command.Handle | experiments/capture-diagnostic-command.ts:44-97 | over every run: output is complete exactly when both streams ended by themselves before they were cancelled, neither delivered more than the bound and no event was a failure; both streams are prefixes within the bound, and SIGKILL was attempted only after SIGTERM, each with exit unconfirmed |
| Capture.Command.Observe | experiments/capture-diagnostic-command.ts:68-76 | the first wait signals the child exactly when its exit is unconfirmed, and otherwise cancels exactly the pipes that are not complete |
| Capture.Command.Wait | experiments/capture-diagnostic-command.ts:76-79 | the second signal goes out exactly when the exit is still unconfirmed after the first; after that, exactly the pipes that are not complete are cancelled |
| Capture.Command.Return | experiments/capture-diagnostic-command.ts:82-97 | output is complete exactly when both pipes are and nothing went wrong, a drain or release that failed included, and then it is the whole of both streams |
| ProxyConfig.ConfigureProxy | experiments/nextcloud-account-tunnel.py:44-62 | the line loop gives exactly the rewritten text, or fails exactly when one of the five fields is missing |
| ProxyConfig.ConfiguredExactly | experiments/nextcloud-account-tunnel.py:50-60 | of the new text, line by line: a line that assigns one of the account's five fields within [Accounts] now assigns the proxy's value for that field, and every other line is as it was |
| ProxyConfig.ConfiguredWhen | experiments/nextcloud-account-tunnel.py:44-62 | the text is rewritten exactly when each of the five fields is assigned somewhere within [Accounts] |
| ProxyConfig.SectionExactly | experiments/nextcloud-account-tunnel.py:51-53 | a line is within [Accounts] exactly when the last line at or before it that begins with a bracket, white space apart, is that heading |
| ProxyConfig.FirstLineExactly | experiments/nextcloud-account-tunnel.py:50-50 | a line is what runs to the first line end, a carriage return and line feed taken together, or to the end of the text |
| PyText.EndsExactly | experiments/nextcloud-account-tunnel.py:50-52 | exactly which characters end a line, and which are white space |
| ProxyConfig.OnlyTheFieldsChange | experiments/nextcloud-account-tunnel.py:50-60 | the new text has the old lines in their order, and only lines that set one of the account's five fields within [Accounts] differ |
| ProxyConfig.LastPortWins | experiments/nextcloud-account-tunnel.py:44-62 | rewriting with one port and then another is rewriting with the other alone, so rewriting is idempotent |
| ProxyConfig.LinesAreSplit | experiments/nextcloud-account-tunnel.py:50-50 | splitting into lines and joining gives the text back |
| ProxyConfig.SplitLinesAreBack | experiments/nextcloud-account-tunnel.py:50-62 | joining split lines and splitting again gives the lines back |
| ProxyConfig.RewrittenIsTarget | experiments/nextcloud-account-tunnel.py:50-58 | a rewritten line sets the same field in the same section as the line it replaces |
| Settings.KeptExactlyWhenUsable | desktop/orbit_settings.py:219-270 | a value passes through unchanged and without a note exactly when it meets the rule of its setting |
| Settings.CoercedMeets | desktop/orbit_settings.py:219-270 | whatever is given, what comes back meets the rule, unless nothing was usable and a note says so |
| Settings.NumbersExactly | desktop/orbit_settings.py:243-251 | a number within its bounds is kept, rounded or not, and one outside becomes the bound it passed, with a note; infinities pass a bound, and what is no number becomes the lower |
| Settings.RoundedIsNearest | desktop/orbit_settings.py:251-251 | rounding gives a nearest integer, and of two the even one |
| Settings.SwitchWords | desktop/orbit_settings.py:229-237 | a switch is on for true, on, yes and 1, and off for false, off, no and 0, in any letter case and within white space |
| Settings.ChoiceWords | desktop/orbit_settings.py:238-242 | a choice is found in any letter case and within white space |
| Settings.ColorsOneByOne | desktop/orbit_settings.py:264-269 | the four states' colours are taken one by one: what is no colour, or not given, is the default, and other keys are dropped |
| Settings.ColorsExactly | desktop/orbit_settings.py:273-274 | a colour is exactly a number sign and six hexadecimal digits, in either letter case |
| Settings.SwitchIsNumber | desktop/orbit_settings.py:243-251 | a switch given for a number counts as one or nought |
| Settings.NegativeMonitor | desktop/orbit_settings.py:252-256 | a monitor given as a negative number stays text |
| Settings.LeadingZeros | desktop/orbit_settings.py:252-256 | zeros before a monitor's number do not count |
| Settings.NothingUsable | desktop/orbit_settings.py:277-282 | a file that is missing, unreadable or holds no object leads to the defaults, and a note says so when it could not be read |
| Settings.ValidatedIsClosed | desktop/orbit_settings.py:277-290 | every stored value leads to settings that meet their rules, a usable value is kept whatever else is stored, and a missing one is the default |
| Settings.ValidatingAgain | desktop/orbit_settings.py:277-290 | validation is idempotent |
| Settings.SavedIsLoaded | desktop/orbit_settings.py:293-321 | validated settings are loaded as they were saved, and a save that fails loses nothing |
| Settings.SchemaIsProper | desktop/orbit_settings.py:108-188 | keys of the schema are distinct, its ranges and choices sensible, and its defaults meet their own rules |
| Settings.Validate | desktop/orbit_settings.py:277-290 | the loops give every key of the schema its chosen value, and no other key |
| Settings.RoundedStaysBetween | desktop/orbit_settings.py:237-245 | rounding half to even stays within whole bounds |
| PanelShape.UnprimedInverts | desktop/panel_draw.py:390-415 | unprimed and primed invert each other on all four edges |
| PanelShape.TurnedLandsBack | desktop/panel_draw.py:420-431 | the turned context lands the primed rectangle exactly on the original one |
| PanelShape.Context.Orient | desktop/panel_draw.py:420-431 | translating, scaling and rotating put each edge's turning before whatever transformation the context had |
| PanelShape.CombinedApplies | desktop/panel_draw.py:420-431 | what is drawn is first turned, and then goes where the context sent everything before |
| PanelShape.NeckIsOutline | desktop/panel_draw.py:141-161 | the neck's branch draws one connected closed outline without a corner |
| PanelShape.NeckHolds | desktop/panel_draw.py:130-149 | the joint lies on the capsule's straight sides and the fillets end on the card's straight top |
| PanelShape.JoinedExactly | desktop/panel_draw.py:120-147 | capsule and card are joined exactly when the card is two high at least and the fillet is wider than a half and bridges the gap, and else drawn as two |
| PanelShape.FilletExactly | desktop/panel_draw.py:136-140 | the fillet is as asked, or what the card's corners or the capsule's leave, whichever is least |
| PanelShape.FittingExactly | desktop/panel_draw.py:133-134 | a radius is as asked or half the shorter side, and never negative |
| PanelShape.BodyIsOutlined | desktop/panel_draw.py:120-161 | whatever the measures, the body is one outline, or two of which the capsule's reaches into the card |
| PanelShape.Context.Body | desktop/panel_draw.py:120-161 | the drawing commands are exactly those of the body's path |
| PanelShape.EasingStaysClose | desktop/panel_draw.py:71-76 | the easing stays between 0 and 1.1 on [0, 1], and runs from 0 to 1 |
| PanelShape.MovedComesNearer | desktop/panel_draw.py:343-356 | a frame's move stays in range, never passes the target and comes nearer by what the frame allows |
| PanelShape.MovedExactly | desktop/panel_draw.py:349-356 | a frame moves by exactly what its time allows of 380 milliseconds to open and 273.6 to close, a quarter of the way and the target at most |
| PanelShape.GapIsDistance | desktop/panel_draw.py:358-358 | the gap is how far one of the two must go to be the other |
| PanelShape.Liquid.Morph | desktop/panel_draw.py:330-341 | without motion the target is reached at once, and with it the frames begin or go on from where the shape is |
| PanelShape.Liquid.Step | desktop/panel_draw.py:343-363 | a step moves by what the frame allows, goes on exactly while that leaves more than a thousandth of the way, and otherwise stops exactly on the target |
| PanelShape.Liquid.Settle | desktop/panel_draw.py:343-363 | with frames at whatever times the shape is nearer its target by what they cover together, and on it once that is the whole way |

## Left out

- GTK widgets, styles, layer-shell placement, painting and accessibility: only child lists, fields and path commands are kept.
- Real sockets, HTTP, D-Bus, subprocesses, SQLite and the compositor: each is a step or a parameter with its stated outcomes.
- JSON text: parsing is a partial function given as a parameter, and saving and loading a value as JSON gives it back.
- The `main` functions of the probes, mock servers and host tasks: scripted scenarios over programs that are not shown.
- Wording, translation tables, clocks, summaries and reports: branch by branch they say what their bodies say.
- StaleGuard: a digest is taken to be injective, symbolic links, permissions and the resolution of the root are left out, directory names are taken in any order and snapshots compared as maps, which sorted names make the same; sizes are exact, as they are below 2^53.
- WatchedStore: stamps are never reused; an inode's number may be, and a whole subtree may be moved in and out.
- SessionCards.SessionList.Update: session identifiers are taken to be distinct, as the broker keys sessions by them; the text of the empty label is left out.
- PanelMachine: notes, the journal, the frame, the blink and the shutdown flag are left out; where the mark is aimed is a parameter of the event; the panel holds the card list by its identifiers, which `PanelMachine.RefreshCards` ties to a real list; what the settings hold beside the mark's place is one text; each handler runs to its end, so a change of focus that a card's own update sets off in the middle of a refresh (desktop/panel.py:425) is a later event.
- PanelMachine.Panel.ApplyStatus: read views are in `ReadViews`, the journal and the announcement are left out, and the parts of a session's shape other than task and state are one text.
- PanelMachine.Panel.Fire: a source is dropped before its callback runs rather than after it returns, which no callback can tell apart since its field is cleared first.
- ReadViews.StepKeepsSound: a call of set_expanded that returns early is no step; presence and the journal are left out.
- MarkClaim.ClaimAlone: a directory that cannot be made, which leaves the claim unsupported before it begins, is left out; a probe succeeds exactly when the socket bound to the file is open; chmod fails exactly when the file is gone.
- GateProbe.StreamIsDelivered: frames are final and unmasked, as the promise is worded; the reader ignores the final and reserved bits, so a fragmented message is not joined.
- GateProbe.Probe.Send: the random key and mask, the timer's duration and the rendering of a call are parameters.
- Acceptance.Controller.Dispatch: the two internal read-only tools send nothing through the controller's client and are left out, as are emitting, files on disk and bounds on input lines; a record that cannot be kept is one outcome.
- Acceptance.Controller.Calculator: names that do not match the monitor pattern stand as missing names.
- Generations.CapturedTurnsAreDelivered: tokens hold no full stop and are not drawn twice; the page helper is a paginator over the captured list with marks of its own.
- Generations.SourceStoodStill: a stamp is never used again, a database is one file with its log, each file is read or copied at one instant, and digests are taken to be injective.
- Generations.Coordinator.OpenGeneration: why a digest or a copy raised is one outcome each, what the walk for symbolic links saw is a flag, a line that is no JSON has no ordinal, and removing a directory is taken to succeed.
- ProcessTree.Below: reading /proc is the table it is given, and the records are looked up by the numbers returned; alive_witnesses is left out.
- JsonLines.JsonRpc.Call: the deadline is the number of waits that fit before it; a reader that raised is not used again.
- Capture.Command.Handle: what an event may be is a precondition; a stream ends uncancelled only when all of it was delivered; readers that cannot be released are recorded once.
- ProxyConfig: reading the configuration for its account, and the tunnel with its counters, are left out.
- Settings: numbers are mathematical, digits are ASCII, and case folding is any function that makes ASCII letters small; the autostart entry, search and the notes' wording are left out.
- PanelShape: arcs are quarter turns and the body's colours, the capsule's measuring and the metaball are left out.
