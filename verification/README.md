# Sheprd verification

Dafny models of the parts of Sheprd that are protocols or algorithms, with proofs about every input,
every run or every reachable state. Each module follows one part of the repository.

- **Replication.** `Transcripts` is the conversation and the reducer all sides run, and `Reducers`
  proves it against a simpler one. `Diff` turns two readings of an agent's log into changes. `Wire` is
  what a client sees. `Mirrors` is the server of a mirrored log: it numbers changes, drops clients that
  cannot keep up and starts a new epoch when history was rewritten; `MirrorReadings` says whom each of
  its steps reaches and with what. `Sessions` is the live chat's owner: a bounded log of changes that
  lets clients resume, and a bounded transcript; `SessionEmissions` says the same of its calls.
  `ChatStores` is the phone's copy, `LiveChats` the
  computer's end of it, which follows a chat as a client and gathers what it sends, and `PhoneLinks`
  the phone's link, which drops what does not follow and asks again. `PhoneSubscriptions` puts them
  together, from a mirror or a session to the phone.
- **The ACP projector.** `Texts` bounds UTF-8 text. `Projectors` is the translator from agent updates
  to transcript changes and the proof that everything it makes fits, and `ProjectedCards` what it makes
  shows. `StreamedEntries`, `StepCaps`,
  `ActivityReports` and `PictureEvictions` prove what becomes of streamed text, of sub-agents' steps,
  of activities and of calls that follow pictures. `LiveProjectors` is the same translator as the
  object a session updates.
- **Smaller parts.** `Locales` (variables of messages that reference each other), `KeepSorted` and
  `KeepSortedFiles` (marked lists kept sorted), `Signing` (a signature and nothing else changed),
  `Nearby` and `NearbyHelper` (framing over Bluetooth and the helper's queues), `Herdr` (the worker
  that reports to Herdr), `Pending` (commands drawn before they are confirmed), `Sbom` (the merged
  dependency graph), `ReleaseNotes` (a build's notes), `Signature` (DER to raw ECDSA). `Basics` and
  `Strings` hold what several of them share.

How the source's outside is modelled. An outbox or a transmit queue that refuses, a call to Herdr that
fails and a clock are inputs (`Fate`, `ready`, `Answers`), so a theorem over all runs is a theorem over
all of them. Threads, timers and replies are steps taken in any order. A fresh UUID (an epoch, a
command's id) is a value not used before. Strings the source measures in bytes are byte sequences;
integers do not overflow. Objects are classes whose methods are proved equal, field for field, to
functions on values; the theorems are about those functions.

Some properties one might expect are false of the code. Each has a lemma at an input and a lemma that
says, for all inputs, when it holds.

- A reading that dropped entries without calling itself truncated leaves clients with a flag the server
  does not have (`Diff.UntruncatedDropDiverges`); the diff gives the next reading exactly when that is
  not so and the fields it never compares agree (`Diff.DiffSound`, `Diff.UncomparedFieldIsSilent`).
- A batch that fails part way moves the phone's cursor past the transcript it kept
  (`ChatStores.PushedTwiceMovesCursor`), exactly when the changes that fitted made a difference
  (`ChatStores.FailingBatchMovesCursor`). It matters where a diverged chat's cursor is cached.
- A phone that asked again after a gap can be told to resume where it no longer is
  (`PhoneSubscriptions.AskedAgainMisleads`), exactly when it asked from where the chat still is and
  the sends since ended at a snapshot older than the base it was answered with, with another
  transcript (`PhoneSubscriptions.AnsweredExactly`). This takes a send that ends between two messages
  queued while the subscription was being answered.
- Text that starts an entry after pictures never streams on into it, as the pictures end the streaming
  entry before it is renumbered (`PictureEvictions.OnePictureSplitsAThought`); without pictures it does
  (`Projectors.PicturesSplitTheMessage`).
- The card of a call that follows pictures is not tracked, and the call gets a second card
  (`PictureEvictions.TwoLargePicturesDoubleTheCard`), exactly when those pictures and the entry before
  them are over the session's budgets together (`PictureEvictions.CardTrackedInBudget`).
- An activity whose end is reported runs on (`ActivityReports.OwnStepRunsOn`), exactly when the call
  has a card or is new, is tagged as a step of itself, and its title is a new line to show
  (`ActivityReports.EndIsKeptUnlessOwnStep`).
- A hidden step gets a card (`StepCaps.AskingShowsHidden`), exactly when a permission is asked about it
  (`StepCaps.DoHides`).

## Model

| member | source | states |
|---|---|---|
| `Transcripts.ApplyKeepsWellFormed` | crates/sheprd-chat-protocol/src/change.rs:86-188 | No change that fits breaks what every transcript satisfies: increasing entry ids, valid notices, at most 32 activities with distinct calls, short texts, distinct permissions; eviction of the oldest ended activity included |
| `Transcripts.FoldKeepsWellFormed` | crates/sheprd-chat-protocol/src/change.rs:86-162 | The same for any batch of changes applied in order |
| `Transcripts.Position` | crates/sheprd-chat-protocol/src/change.rs:86-162 | Finds an entry by id exactly when there is one |
| `Reducers.EntriesRefine` | crates/sheprd-chat-protocol/src/change.rs:86-122 | The changes of entries that fit are those that fit a map from ids to what entries hold, where a new id is above all others, and they do to the entries what they do to the map and to nothing else |
| `Reducers.BookDecides` | crates/sheprd-chat-protocol/src/change.rs:86-122 | In order, the entries are what that map says, each in its place |
| `Reducers.AskedAndResolved` | crates/sheprd-chat-protocol/src/change.rs:124-141 | A permission is asked once and listed last, and resolving it leaves the chat as it was |
| `Reducers.ResolvedIs` | crates/sheprd-chat-protocol/src/change.rs:134-141 | Resolving fits exactly for a permission that is there, and takes exactly it away |
| `Reducers.OldestEndedGoes` | crates/sheprd-chat-protocol/src/change.rs:166-188 | A new activity in a full list takes the place of the oldest that ended, and is refused exactly while all run |
| `Reducers.OthersSet` | crates/sheprd-chat-protocol/src/change.rs:123-158 | Every other change sets its own field and no other; only a mode where there are no modes is refused |
| `Diff.Compute` | crates/sheprd-acp/src/mirror.rs:155-227 | The loops that collect the changes compute `Changes` |
| `Diff.DiffSound` | crates/sheprd-acp/src/mirror.rs:155-227 | Whenever a diff exists it applies to any copy equal to the previous reading, and gives the next one if and only if the uncompared fields agree and a reading that dropped entries says it is truncated |
| `Diff.DiffExists` | crates/sheprd-acp/src/mirror.rs:155-227 | A diff exists if and only if the next reading has entries, begins with the ids the previous one had of its span, lists every activity it listed, is truncated if it was, and when newly truncated starts after an entry that was there |
| `Diff.DiffSaysWhatIsNeeded` | crates/sheprd-acp/src/mirror.rs:155-227 | A diff has a change if and only if it is needed: a cut where entries went, the new form of each entry that differs, each entry and activity that is new, each field that differs |
| `Diff.DiffSaysItOnce` | crates/sheprd-acp/src/mirror.rs:155-227 | No change is in a diff twice |
| `Diff.DiffApplies` | crates/sheprd-acp/src/mirror.rs:155-227 | What a diff makes of a copy, field by field, for any two well-formed readings |
| `Diff.UntruncatedDropDiverges` | crates/sheprd-acp/src/mirror.rs:155-227 | The smallest reading whose diff leaves clients with another truncated flag |
| `Diff.UncomparedFieldIsSilent` | crates/sheprd-acp/src/mirror.rs:155-227 | For every reading, a change to the fields never compared, details and permissions, gives an empty diff when there are entries and a snapshot when there are none |
| `Diff.Upserted` | crates/sheprd-chat-protocol/src/change.rs:166-188 | With room or a known call, recording an activity replaces exactly the one of its call |
| `Mirrors.Mirror.constructor` | crates/sheprd-acp/src/mirror.rs:71-78 | A mirror starts with no client, at the start of an epoch |
| `Mirrors.Mirror.Receive` | crates/sheprd-acp/src/mirror.rs:87-123 | Attach, detach and command inputs, with any send refused, do what the step function says |
| `Mirrors.Mirror.Send` | crates/sheprd-acp/src/mirror.rs:125-128 | Broadcasting keeps exactly the clients whose outbox took the message |
| `Mirrors.Mirror.Update` | crates/sheprd-acp/src/mirror.rs:130-150 | A new reading is broadcast as its numbered changes, or as a snapshot of a new epoch |
| `Mirrors.WelcomeCatches` | crates/sheprd-acp/src/mirror.rs:87-104 | A client that attaches is sent exactly what the server holds, at the server's cursor |
| `Mirrors.OnInputKeeps` | crates/sheprd-acp/src/mirror.rs:87-123 | Every input keeps the replication invariant |
| `Mirrors.OnReadingKeeps` | crates/sheprd-acp/src/mirror.rs:130-150 | Every lawful reading keeps it; the log keeps all it had and adds only cursors of one epoch |
| `Mirrors.EveryRunReplicates` | crates/sheprd-acp/src/mirror.rs:87-150 | Over every run, whatever sends fail: every registered client holds the server's transcript at the server's cursor, every stream ever sent was usable at each message with contiguous change numbers, never went back or returned to an epoch it left, one log gives each cursor one transcript, that of the server at every point of the run, sent or not, and at most eight clients are registered |
| `MirrorReadings.ReadingReaches` | crates/sheprd-acp/src/mirror.rs:130-150 | After any reading the server holds it, and every client was sent the same messages, the diff numbered on from the cursor or a snapshot of a new epoch; a client is registered afterwards if and only if it was and took them all, with exactly them added, and one that did not is closed with those it took |
| `MirrorReadings.ReadingIsSeen` | crates/sheprd-acp/src/mirror.rs:130-150 | A reading sends nothing if and only if it is the one held, or has entries and changes nothing a client is told of |
| `MirrorReadings.InputReaches` | crates/sheprd-acp/src/mirror.rs:87-123 | Whom each input registers or drops and what it is sent, every other client and the transcript staying as they were |
| `MirrorReadings.RunHoldsTheLatest` | crates/sheprd-acp/src/mirror.rs:87-150 | Over every run the server holds the last reading, or what it began with |
| `MirrorReadings.EveryRunShowsTheLatest` | crates/sheprd-acp/src/mirror.rs:87-150 | Over every run every registered client holds the last reading at the server's cursor |
| `Sessions.KeepFrom` | crates/sheprd-acp/src/session.rs:482-497 | The least number of oldest entries to drop so that the rest fits both byte budgets and the count, or is the newest entry alone |
| `Sessions.ComputeKeepFrom` | crates/sheprd-acp/src/session.rs:485-497 | The loop with running sums computes it |
| `Sessions.MakeRoom` | crates/sheprd-acp/src/session.rs:268-275 | Popping the oldest logged changes keeps the byte count and stops exactly when the new one fits |
| `Sessions.EmitBounds` | crates/sheprd-acp/src/session.rs:255-316 | After any change the transcript is within both byte budgets and the count again, or is its newest entry alone |
| `Sessions.EmitKeeps` | crates/sheprd-acp/src/session.rs:255-316 | A change, the truncation it causes and the client counts it causes keep the invariant, whatever outboxes fail; what a change that fits makes is the history's next transcript, and one that does not fit adds none |
| `Sessions.ResumeCatchesUp` | crates/sheprd-acp/src/session.rs:347-403 | Whoever holds what its cursor names, or nothing of this epoch, holds the session's transcript after the messages it is due, whatever the log has forgotten |
| `Sessions.OnAttachKeeps` | crates/sheprd-acp/src/session.rs:347-403 | Attaching keeps the invariant, resumed or not, registered or not |
| `Sessions.OnDetachKeeps` | crates/sheprd-acp/src/session.rs:405-414 | Detaching keeps it |
| `Sessions.EveryRunResumes` | crates/sheprd-acp/src/session.rs:247-414 | Over every run of changes, attaches from wherever a client stopped, and detaches: one history names the transcript of each cursor, every subscriber was sent messages in turn and holds the session's own, the log is the history's unbroken end within its limits, and the transcript is within its budgets and count or is one entry |
| `SessionEmissions.EmitMakes` | crates/sheprd-acp/src/session.rs:255-316 | A change that does not fit does nothing. One that fits is the first made, then only the truncation it needs and client counts; all are applied, numbered, logged and sent, exactly the subscribers that took them all are left, with exactly them added, and the transcript is the changed one without the entries over its bounds and with the clients counted again if one was lost; it is the only change if and only if nothing is over the bounds and no remote subscriber was lost |
| `SessionEmissions.LogKeepsMost` | crates/sheprd-acp/src/session.rs:268-275 | No more of the log is given up than makes room for a change |
| `SessionEmissions.CatchUpExactly` | crates/sheprd-acp/src/session.rs:362-389 | A client the log still goes on from is sent the changes after its cursor and nothing else, every other one a snapshot and nothing else |
| `SessionEmissions.AttachMakes` | crates/sheprd-acp/src/session.rs:347-403 | A client that does not take all it is due changes nothing; one that does is subscribed, last, with what it is due, and a remote one is counted |
| `SessionEmissions.DetachMakes` | crates/sheprd-acp/src/session.rs:405-414 | A client that leaves is no subscriber any more, and a remote one is no longer counted |
| `SessionEmissions.EveryRunCounts` | crates/sheprd-acp/src/session.rs:247-414 | Over every run that begins without clients the transcript counts exactly the remote subscribers, whoever was lost on the way |
| `Sessions.Session.EmitChange` | crates/sheprd-acp/src/session.rs:255-301 | The object's emit is the step function's |
| `Sessions.Session.Attach` | crates/sheprd-acp/src/session.rs:347-403 | The object's attach is the step function's |
| `Sessions.Session.Detach` | crates/sheprd-acp/src/session.rs:405-414 | The object's detach is the step function's |
| `ChatStores.ChatStore.Receive` | ios/SheprdRemote/Stores.swift:33-64 | Every event does to the store's fields what the step function says |
| `ChatStores.ChatStore.ApplyBatch` | ios/SheprdRemote/Stores.swift:45-57 | The loop over a batch, left early at the change that does not fit |
| `ChatStores.EveryRunShowsTheLog` | ios/SheprdRemote/Stores.swift:33-64 | For every sequence of events from a consistent log, while not diverged the store shows the transcript its cursor names, but for the order of activities |
| `ChatStores.EveryRunTells` | ios/SheprdRemote/Stores.swift:33-64 | Over every run the store is connected as the last event that told said, and stale exactly until a snapshot or a resumption |
| `ChatStores.BatchIsAtomic` | ios/SheprdRemote/Stores.swift:45-57 | A batch applies wholly, as the reducer folds it, or leaves the transcript and sets diverged |
| `ChatStores.DivergedWaits` | ios/SheprdRemote/Stores.swift:45-47 | Once diverged, no change is applied until a snapshot |
| `ChatStores.FailingBatchMovesCursor` | ios/SheprdRemote/Stores.swift:48-56 | After a failing batch the cursor is that of the last change that fitted, and names the kept transcript if and only if the changes that fitted made no difference |
| `ChatStores.PushedTwiceMovesCursor` | ios/SheprdRemote/Stores.swift:48-56 | A batch for which it does not |
| `LiveChats.StoreIsAClient` | ios/SheprdRemote/Stores.swift:33-64 | Over every run of events, diverging or not, with snapshots with or without a cursor, the store holds what a client holds that replays the messages they stand for |
| `LiveChats.Batch.TakeMessage` | crates/sheprd-remote-control/src/native/live.rs:294-314 | A snapshot replaces what was gathered, a change the phone has is skipped, any other is added |
| `LiveChats.Split` | crates/sheprd-remote-control/src/native/live.rs:348-362 | The loop starts a new batch at each picture |
| `LiveChats.SplitIsSame` | crates/sheprd-remote-control/src/native/live.rs:348-362 | Splitting at pictures loses, repeats and moves nothing |
| `LiveChats.SplitStartsAtPictures` | crates/sheprd-remote-control/src/native/live.rs:348-361 | A batch begins at each picture and, after the first, nowhere else |
| `LiveChats.MessagesTell` | crates/sheprd-remote-control/src/native/live.rs:318-341 | The connection's state is sent, last, exactly when it was gathered |
| `LiveChats.MessagesSend` | crates/sheprd-remote-control/src/native/live.rs:318-342 | Sending what was gathered is sending the messages it stands for |
| `LiveChats.GatherOn` | crates/sheprd-remote-control/src/native/live.rs:294-314 | Sent from where the stream is, whatever is gathered up to any later point brings the phone there, each change following what it holds |
| `LiveChats.GatherSnapshot` | crates/sheprd-remote-control/src/native/live.rs:294-314 | A gathering with a snapshot does so from any place |
| `LiveChats.AwayOrBehind` | crates/sheprd-remote-control/src/native/live.rs:301-311 | With no snapshot between, what was queued before the base is all of another epoch or all skipped by its cursor |
| `PhoneLinks.Link.Follow` | ios/SheprdRemoteCore/Sources/SheprdRemoteCore/Live/ComputerLink.swift:238-271 | The object passes an event on, moves its cursor and asks again as the functions say |
| `PhoneLinks.SendPasses` | ios/SheprdRemoteCore/Sources/SheprdRemoteCore/Live/ComputerLink.swift:249-258 | A send that brings the phone somewhere passes whole, and after each of its events the phone shows what the log names |
| `PhoneLinks.SendDropped` | ios/SheprdRemoteCore/Sources/SheprdRemoteCore/Live/ComputerLink.swift:249-257 | A send of changes of another epoch is dropped whole, and the link asks again from where it is |
| `PhoneLinks.EarlySendIsDropped` | ios/SheprdRemoteCore/Sources/SheprdRemoteCore/Live/ComputerLink.swift:252-257 | A change of another epoch sent alone reaches no store, and the link asks again once |
| `PhoneLinks.OneSend` | crates/sheprd-remote-control/src/native/live.rs:417-456 | One send, wherever it cuts the queue, takes the phone from its place to its next one |
| `PhoneLinks.SendsFollow` | crates/sheprd-remote-control/src/native/live.rs:404-456 | For every way the sends cut the queue: once one reaches the base, or a snapshot came since the subscription, the phone is exactly where the computer's client is; until then it stays at the base; after every event it shows what the log names; and it asks again only from the base |
| `PhoneLinks.SendsFollowNothing` | crates/sheprd-remote-control/src/native/live.rs:404-456 | The same for a chat that had sent nothing when the phone subscribed: the phone is where the computer's client is after every send |
| `PhoneSubscriptions.PhoneFollows` | crates/sheprd-remote-control/src/native/live.rs:365-456 | Both, for every subscription that is answered at its base |
| `PhoneSubscriptions.AnsweredExactly` | ios/SheprdRemoteCore/Sources/SheprdRemoteCore/Live/ComputerLink.swift:247-257 | After any run of subscriptions, the answer to the next leaves the phone at its base if and only if it is not a resumption where the phone was at a gap and has gone back since, to another transcript |
| `PhoneSubscriptions.UnchangedCostsNothing` | crates/sheprd-remote-control/src/native/live.rs:365-385 | A phone that asks from where the chat is keeps its transcript; any other is sent the chat's |
| `PhoneSubscriptions.AskedAgainMisleads` | ios/SheprdRemoteCore/Sources/SheprdRemoteCore/Live/ComputerLink.swift:247-257 | For every chat that starts empty, a stream and two subscriptions after which the phone shows what its cursor does not name |
| `PhoneSubscriptions.PhoneAlwaysFollows` | crates/sheprd-remote-control/src/native/live.rs:365-456 | Over every other run of subscriptions, asking from nothing, from where the phone is or from where it was at any gap, the same holds of each |
| `PhoneSubscriptions.PhoneShowsTheMirror` | crates/sheprd-remote-control/src/native/live.rs:365-456 | Over every run of a mirror and of subscriptions the phone shows what the one log names after every event, and once sent everything shows the server's transcript at the server's cursor |
| `PhoneSubscriptions.JoinedIsOwn` | crates/sheprd-remote-control/src/hub/chat.rs:248-350 | Across any number of reconnections to a session, each resuming where the one before was cut off, what the computer reads is one faithful stream |
| `PhoneSubscriptions.PhoneShowsTheSession` | crates/sheprd-remote-control/src/native/live.rs:365-456 | Over every run of a session, of the computer's reconnections and of subscriptions the phone shows what the session's history names after every event, and the session's transcript once all is sent |
| `Texts.ComputeClip` | crates/sheprd-acp/src/project.rs:795-811 | The boundary search computes the last boundary, in at most three steps for valid text |
| `Texts.ClipFits` | crates/sheprd-acp/src/project.rs:795-811 | A chunk is refused exactly when the text is full; one that is taken keeps it valid UTF-8 within 262144 bytes, and one that is cut fills it |
| `Texts.BoundedFits` | crates/sheprd-acp/src/project.rs:788-793 | Every text an entry starts with is valid and within the limit |
| `Texts.StreamIsShaped` | crates/sheprd-acp/src/project.rs:156-197 | For every sequence of chunks the text is all of it, a whole-chunk prefix that filled it, or such a prefix, a character-boundary cut of the next chunk and one marker |
| `Texts.FullStaysFull` | crates/sheprd-acp/src/project.rs:156-197 | Once a chunk is cut or refused nothing is ever appended again |
| `Texts.BoundarySplits` | crates/sheprd-acp/src/project.rs:795-811 | Cutting valid text at a boundary leaves two valid texts |
| `Texts.ActivityClipIs` | crates/sheprd-acp/src/project/activity.rs:184-193 | An activity's line is valid UTF-8: the first line from its first to its last character that is no blank, or at least 1021 bytes of it |
| `Projectors.ChunkFits` | crates/sheprd-acp/src/project.rs:156-197 | A chunk's change fits, and an append goes to the last entry, begun by the same stream and message |
| `Projectors.ToolFits` | crates/sheprd-acp/src/project.rs:200-243 | A tool change replaces the live card of the same call exactly when the call is tracked, and pushes its first one otherwise |
| `Projectors.TrimFits` | crates/sheprd-acp/src/project.rs:245-248 | Forgetting what was dropped leaves every tracked call with a live card |
| `Projectors.RecordFits` | crates/sheprd-acp/src/project/activity.rs:108-148 | What is recorded always has room and short enough texts, and evicts nothing that runs |
| `Projectors.ActivityChangesFit` | crates/sheprd-acp/src/project.rs:306-318 | A call's activity changes fit one after the other though both were made from the transcript before |
| `Projectors.TaggedFits` | crates/sheprd-acp/src/project.rs:252-319 | Every change of a tagged call fits |
| `Projectors.DoFits` | crates/sheprd-acp/src/project.rs:358-475 | Whatever it is asked, the projector's changes fit the transcript it read and it stays in step with the result |
| `Projectors.DoAims` | crates/sheprd-acp/src/project.rs:156-248 | An append goes to the last entry of its stream and message, a replacement to the live card of its very call, a push takes the next id |
| `ProjectedCards.DoShows` | crates/sheprd-acp/src/project.rs:200-319 | An operation touches a card if and only if it asks about a call or reports one that may be shown; the first change is then that card, showing each of title, status, content, locations and kind as the operation names it, else as the card it replaces had it, else as a new card begins, with its parent and the time it started; no other change touches an entry |
| `ProjectedCards.EditedShows` | crates/sheprd-acp/src/project.rs:673-697 | What a patch and a tag make of a card, field by field |
| `ProjectedCards.AdmittedExactly` | crates/sheprd-acp/src/project.rs:252-345 | A call may be shown if and only if it is not hidden, and has a card, is no one's step, or is one of the first 64 steps remembered |
| `ProjectedCards.ReportsReach` | crates/sheprd-acp/src/project.rs:252-433 | Unless the to-do list takes the call, what its tag says of activities is recorded, the report and then the step, under the title the card then has |
| `ProjectedCards.RecordShows` | crates/sheprd-acp/src/project/activity.rs:108-148 | What is recorded of an activity shows the report field by field; nothing is recorded if and only if the report is not taken or says nothing new |
| `ProjectedCards.StepShows` | crates/sheprd-acp/src/project/activity.rs:151-165 | A running sub-agent shows its latest step and nothing else changes; nothing is said if and only if it does not run or shows it already |
| `ProjectedCards.DoesAsAsked` | crates/sheprd-acp/src/project.rs:96-154 | After a notice, a turn, a picture, a prompt, a plan, a mode or a truncation the transcript is as before but for what was asked |
| `ProjectedCards.TodosAreFollowed` | crates/sheprd-acp/src/project.rs:358-433 | A call the to-do list takes sets the plan unless the agent plans itself, and is followed until an update ends it or stops being one |
| `ProjectedCards.PicturesComeFirst` | crates/sheprd-acp/src/session/pictures.rs:24-56 | The pictures a message linked are pushed in order before what the operation pushes, which is what it would have been |
| `Projectors.InsertedFits` | crates/sheprd-acp/src/session/pictures.rs:24-57 | Pictures put in before an entry, and evictions they cause, never make it or them misfit |
| `Projectors.RenumberedFits` | crates/sheprd-acp/src/project.rs:84-93 | A renumbered entry comes after every other and its call's card is found under the new id |
| `Projectors.EveryRunFits` | crates/sheprd-acp/src/project.rs:77-248 | Over every run of updates, prompts, pictures and evictions, from any history: every change fits, pushed ids strictly increase, and the next update's changes go where they may |
| `Projectors.PicturesSplitTheMessage` | crates/sheprd-acp/src/session/pictures.rs:31-50 | After pictures the next chunk of the same message always starts another entry; without them it appends what still fits |
| `Projectors.NewCardTracked` | crates/sheprd-acp/src/session/pictures.rs:42-50 | A new call's card stays tracked if and only if no eviction for the pictures before it reaches its first id |
| `PictureEvictions.RoomIsMade` | crates/sheprd-acp/src/session.rs:310-316 | Emitting pictures one by one leaves exactly the entries `keep_from` keeps after each |
| `PictureEvictions.RoomBeforeEntry` | crates/sheprd-acp/src/session/pictures.rs:42-50 | The same for the pictures that go in before an update's own entry |
| `PictureEvictions.CardTrackedInBudget` | crates/sheprd-acp/src/session/pictures.rs:31-50 | With the session's own evictions, a new call's card stays tracked if and only if the pictures before it and the entry before them are within the count and both byte budgets together |
| `PictureEvictions.UntrackedCardIsDoubled` | crates/sheprd-acp/src/session/pictures.rs:31-50 | A card that is not tracked is in the transcript all the same, and the next change of its call pushes a second one |
| `PictureEvictions.TwoLargePicturesDoubleTheCard` | crates/sheprd-acp/src/session/pictures.rs:31-50 | Two pictures of 5 MiB before a call do that |
| `PictureEvictions.OnePictureSplitsAThought` | crates/sheprd-acp/src/session/pictures.rs:31-50 | A thought that starts after a linked picture, and whose next chunk starts another entry |
| `StreamedEntries.StreamBecomesOneEntry` | crates/sheprd-acp/src/project.rs:156-197 | Chunks of one stream and message with nothing between them become one entry whose text is the bounded stream |
| `StreamedEntries.StreamedEntryIsShaped` | crates/sheprd-acp/src/project.rs:156-197 | So the entry's text is valid, bounded and of the shape `StreamIsShaped` gives |
| `StepCaps.AdmitWithin` | crates/sheprd-acp/src/project.rs:337-345 | Counting a step keeps at most 65 counts, as the transcript lists at most 32 activities |
| `StepCaps.SkipWithin` | crates/sheprd-acp/src/project.rs:322-334 | Hiding a step keeps at most 1024 |
| `StepCaps.EveryRunStaysWithin` | crates/sheprd-acp/src/project.rs:322-414 | In every run at most 1024 hidden calls, 1024 to-do calls and 65 counts are remembered |
| `StepCaps.AtMost64Cards` | crates/sheprd-acp/src/project.rs:252-345 | In every run in which a sub-agent's activity stays in the transcript, at most 64 new calls tagged with it are pushed |
| `StepCaps.DoHides` | crates/sheprd-acp/src/project.rs:252-334 | No update touches a card of a hidden call, if and only if it is not a permission request about that call |
| `StepCaps.AskingShowsHidden` | crates/sheprd-acp/src/session/agent.rs:226-228 | After a run of 65 calls of one sub-agent the last is hidden, and a permission request about it pushes its card |
| `StepCaps.HiddenStaysHidden` | crates/sheprd-acp/src/project.rs:252-334 | In every run without such a request a hidden call has no tracked card and the next update makes none |
| `ActivityReports.EndedStaysEnded` | crates/sheprd-acp/src/project/activity.rs:104-165 | An activity that ended is as it was, or dropped, whatever the projector is asked |
| `ActivityReports.EndIsKeptUnlessOwnStep` | crates/sheprd-acp/src/project.rs:358-433 | For every call or call update that reports the end of a running activity, the activity has ended after it if and only if the call is not also a step of itself, by a new call or one with a card, whose title is a new line to show |
| `ActivityReports.OwnStepRunsOn` | crates/sheprd-acp/src/project.rs:306-318 | A call for which it runs on |
| `LiveProjectors.Projector.constructor` | crates/sheprd-acp/src/project.rs:70-75 | Entries come after the history's last |
| `LiveProjectors.Projector.NextId` | crates/sheprd-acp/src/project.rs:77-80 | The next id is one more than the last |
| `LiveProjectors.Projector.RenumberEntry` | crates/sheprd-acp/src/project.rs:84-93 | The streaming entry and every tracked call move to the new id |
| `LiveProjectors.Projector.RenumberTools` | crates/sheprd-acp/src/project.rs:89-91 | The loop over tracked calls renames exactly those of the old id |
| `LiveProjectors.Projector.Make` | crates/sheprd-acp/src/project.rs:96-154 | Notices, turns, pictures and prompts end the streaming entry and take the next id |
| `LiveProjectors.Projector.Text` | crates/sheprd-acp/src/project.rs:156-197 | The object's chunk step is the function's |
| `LiveProjectors.Projector.Tool` | crates/sheprd-acp/src/project.rs:200-243 | The object's tool step is the function's |
| `LiveProjectors.Projector.Forget` | crates/sheprd-acp/src/project.rs:246-248 | The object's forgetting is the function's |
| `LiveProjectors.Projector.SkipStep` | crates/sheprd-acp/src/project.rs:322-334 | The object's hiding is the function's |
| `LiveProjectors.Projector.AdmitStep` | crates/sheprd-acp/src/project.rs:337-345 | The object's counting is the function's |
| `LiveProjectors.Projector.TagCall` | crates/sheprd-acp/src/project.rs:252-319 | The object's tagged call, statement by statement, is the function's |
| `LiveProjectors.Projector.Update` | crates/sheprd-acp/src/project.rs:358-475 | The object's update is the function's |
| `LiveProjectors.Projector.UpdateCall` | crates/sheprd-acp/src/project.rs:390-433 | The object's call update, to-do paths included, is the function's |
| `Locales.PatternUses` | crates/sheprd-gpui/locales.rs:180-186 | Adds exactly the variables and messages named in the pattern |
| `Locales.ExpressionUses` | crates/sheprd-gpui/locales.rs:188-198 | The same for an expression and all its variants |
| `Locales.InlineUses` | crates/sheprd-gpui/locales.rs:200-222 | The same for an inline expression, leaving a term's arguments out |
| `Locales.Variables` | crates/sheprd-gpui/locales.rs:160-176 | With `visiting` shared and never popped, a call adds exactly messages it reaches, leaves nothing they reference unvisited, and returns what those have of their own; it ends as fewer messages stay unvisited |
| `Locales.MessageVariables` | crates/sheprd-gpui/locales.rs:130-134 | At the top the result is the union over all defined messages reachable from the id, cycles and dangling references included |
| `Locales.Generate` | crates/sheprd-gpui/locales.rs:110-137 | Every message is listed with exactly the variables named in its text or in a text reached from it by reference |
| `KeepSorted.ComputeKey` | scripts/check-sorted.py:50-58 | The search loop computes the key |
| `KeepSorted.KeyOfPublished` | scripts/check-sorted.py:50-58 | An entry whose own line, after its comments and attributes, is `pub`, perhaps with a scope, a gap and a name is sorted by that name |
| `KeepSorted.KeyOfOther` | scripts/check-sorted.py:50-58 | Any other entry is sorted by its own line, stripped |
| `KeepSorted.IndentIs` | scripts/check-sorted.py:37-38 | A line is indented by all the space it begins with |
| `Strings.StripIs` | scripts/check-sorted.py:55 | Stripping takes all the space around a text and nothing else |
| `KeepSorted.ComputeEntries` | scripts/check-sorted.py:61-82 | The loop with `pending` and `result` computes the entries or the error |
| `KeepSorted.EntriesAreShaped` | scripts/check-sorted.py:61-82 | A block splits into given entries if and only if they concatenate to it and each is comments and attributes, its own line, then only deeper or closing lines |
| `KeepSorted.EntriesFail` | scripts/check-sorted.py:76-81 | Which of the two errors a block gives, exactly |
| `KeepSorted.SortedIsStable` | scripts/check-sorted.py:92 | Sorting is ordered by key, a permutation, and keeps the order within each key |
| `KeepSorted.StableSortIsUnique` | scripts/check-sorted.py:92 | There is only one such order, so any stable sort gives it |
| `KeepSortedFiles.SortedBlockResplits` | scripts/check-sorted.py:90-94 | Splitting a sorted block again gives exactly its sorted entries, and sorting it again changes nothing |
| `KeepSortedFiles.ComputeSortRegion` | scripts/check-sorted.py:85-103 | The loop with `block` and `out` computes the sorted region or the error |
| `KeepSortedFiles.RegionIsFixpoint` | scripts/check-sorted.py:85-103 | A sorted region is the same lines, and sorts to itself |
| `KeepSortedFiles.RegionSortsBlocks` | scripts/check-sorted.py:85-103 | Every block is sorted where it stands and every blank line stays |
| `KeepSortedFiles.RegionFails` | scripts/check-sorted.py:85-103 | A region fails only with the error of one of its blocks |
| `KeepSortedFiles.ComputeProcess` | scripts/check-sorted.py:106-130 | The loop over the file computes the output, the unsorted regions or the error |
| `KeepSortedFiles.FixIsFixpoint` | scripts/check-sorted.py:106-130 | If a file is processed, its output is accepted unchanged with nothing unsorted |
| `KeepSortedFiles.ProcessSorts` | scripts/check-sorted.py:106-130 | Every region is sorted in place, every other line is untouched, and exactly the changed regions are reported |
| `KeepSortedFiles.ProcessFails` | scripts/check-sorted.py:112-129 | A file is refused if and only if a start marker has no end marker after it or a region cannot be sorted, and the error names such a place |
| `KeepSortedFiles.RegionIsMarked` | scripts/check-sorted.py:112-121 | A region lies between a start marker and the first end marker after it |
| `KeepSortedFiles.MarkedIsRegion` | scripts/check-sorted.py:112-121 | Every start marker that an end marker follows opens a region or lies in one |
| `Signing.WithoutSignature` | scripts/release/windows-signing.py:73-105 | Nothing is wrong if and only if the images agree on every byte of the unsigned prefix but checksum and directory entry, with fewer than 8 zero bytes before an aligned table at the end |
| `Signing.ClearFields` | scripts/release/windows-signing.py:101-103 | Patching in place zeroes exactly the two fields |
| `Signing.HeaderStays` | scripts/release/windows-signing.py:54-70 | The fields a signature sets are none of those the header is found by |
| `Signing.SigningIsAccepted` | scripts/release/windows-signing.py:73-105 | Adding an aligned trailing table to any unsigned image, or replacing a trailing one, is always accepted |
| `Signing.AcceptanceComposes` | scripts/release/windows-signing.py:73-105 | An image accepted against an accepted one is accepted against the first |
| `Nearby.Chunks` | macos/sheprd-nearby/Framing.swift:10-14 | The stride computes the pieces |
| `Nearby.ChunksSplit` | macos/sheprd-nearby/Framing.swift:10-14 | The pieces are a split of the frame, none empty, none longer than the link takes |
| `Nearby.Reassembly.Add` | macos/sheprd-nearby/Framing.swift:23-29 | A chunk is appended and the whole buffer judged |
| `Nearby.PrefixIsPartial` | macos/sheprd-nearby/Framing.swift:23-29 | A frame is partial until its last byte, then complete with its message |
| `Nearby.JudgeExactly` | macos/sheprd-nearby/Framing.swift:23-29 | A buffer is complete if and only if it is a frame, and invalid if and only if it announces more than 4096 bytes or goes past its end |
| `Nearby.SplitIsHeard` | macos/sheprd-nearby/Framing.swift:10-29 | However a frame is split, its last piece and no other completes the message |
| `Nearby.FramesAreHeard` | macos/sheprd-nearby/Framing.swift:10-29 | The messages framed one after another are exactly those heard, in order |
| `NearbyHelper.Helper.ReceiveWrite` | macos/sheprd-nearby/main.swift:180-205 | A batch is taken whole when every request is permitted and refused whole otherwise |
| `NearbyHelper.Helper.TakeRequest` | macos/sheprd-nearby/main.swift:188-203 | One request goes to its own phone's and characteristic's buffer |
| `NearbyHelper.Helper.SendMessage` | macos/sheprd-nearby/main.swift:109-116 | A message's chunks go to the end of the queue, to a known phone only |
| `NearbyHelper.Helper.FlushPending` | macos/sheprd-nearby/main.swift:118-123 | The queue is sent from its front until the transmit queue refuses |
| `NearbyHelper.Helper.ForgetSubscriber` | macos/sheprd-nearby/main.swift:211-218 | What was partial or waiting for that phone and characteristic is dropped, and no other |
| `NearbyHelper.RunIsHeard` | macos/sheprd-nearby/main.swift:180-218 | Over every run, a phone's frames on a characteristic are what its own permitted writes make there |
| `NearbyHelper.FramesAreMessages` | macos/sheprd-nearby/main.swift:188-203 | For every interleaving, the frames printed per phone and characteristic are exactly the messages framed there, in order |
| `NearbyHelper.RefusedChangesNothing` | macos/sheprd-nearby/main.swift:181-187 | One request that is not permitted refuses the whole batch |
| `NearbyHelper.RunQueues` | macos/sheprd-nearby/main.swift:109-123 | Nothing queued for a subscribed phone is lost, repeated or reordered |
| `NearbyHelper.SentIsHeard` | macos/sheprd-nearby/main.swift:109-123 | What reached a subscribed phone reads as a prefix of the messages sent to it, and as all of them once its queue is empty |
| `NearbyHelper.EventFlushes` | macos/sheprd-nearby/main.swift:109-123 | Whenever the transmit queue is ready, and after each message, what waits is sent until nothing does or the queue is full |
| `NearbyHelper.LeavingForgets` | macos/sheprd-nearby/main.swift:211-218 | What was partial or waiting for a phone that leaves is gone, and that it left is said exactly on the presence characteristic |
| `NearbyHelper.RunRemembers` | macos/sheprd-nearby/main.swift:180-205 | Over every run pairing and presence are as last switched, and a phone is sent messages if and only if it once wrote in a permitted batch |
| `Herdr.Reporter.PostActivity` | crates/sheprd-acp/src/herdr.rs:64-68 | The latest activity replaces the one waiting |
| `Herdr.Reporter.PostText` | crates/sheprd-acp/src/herdr.rs:71-75 | The latest prompt replaces the one waiting |
| `Herdr.Reporter.BeginClosing` | crates/sheprd-acp/src/herdr.rs:104-107 | Closing is one more thing in the mailbox, whatever else waits there |
| `Herdr.Reporter.NextNumber` | crates/sheprd-acp/src/herdr.rs:270-280 | The clock, or one more than the last number when the clock is behind |
| `Herdr.Reporter.SendState` | crates/sheprd-acp/src/herdr.rs:238-263 | The state report, and the report repeated after taking the pane back |
| `Herdr.Reporter.Iterate` | crates/sheprd-acp/src/herdr.rs:132-225 | One turn of the worker's loop is the step function's |
| `Herdr.Reporter.SendTitleNow` | crates/sheprd-acp/src/herdr.rs:176-202 | Title and tab name, tried again until both took or the attempts are over |
| `Herdr.Reporter.LeaveNow` | crates/sheprd-acp/src/herdr.rs:203-223 | Closing restores a tab it named and withdraws what it reported |
| `Herdr.EveryRunReportsWell` | crates/sheprd-acp/src/herdr.rs:114-280 | Over every run, with any clock, failures and interleaving: sequence numbers strictly increase, the first call is a state report, each prompt's title is sent at most five times, the worker is done if and only if it woke after closing was asked, and then it has withdrawn token, title and agent, last, if and only if it had reported; before that it withdraws nothing |
| `Herdr.WakingClosedEnds` | crates/sheprd-acp/src/herdr.rs:203-223 | The first wake after closing was asked ends the worker and withdraws what was reported, and nothing is sent after it |
| `Herdr.WakeSends` | crates/sheprd-acp/src/herdr.rs:160-202 | Once anything is reported, a wake that is not closing announces exactly while that has not succeeded, and sends the latest title that is due and no other |
| `Herdr.WakeTitles` | crates/sheprd-acp/src/herdr.rs:173-202 | A title that is due is sent as soon as anything is reported, stays due if and only if its call or the tab failed and it was tried less than five times, and renames the tab if and only if it may |
| `Herdr.RenameExactly` | crates/sheprd-acp/src/herdr.rs:289-319 | The tab is renamed if and only if it was read, has another label this chat may replace and, for a title, no other pane |
| `Herdr.ReportsAgain` | crates/sheprd-acp/src/herdr.rs:238-263 | A state is reported once more if and only if another source holds the pane and its authority was cleared |
| `Herdr.LeavingRestores` | crates/sheprd-acp/src/herdr.rs:203-222 | Closing puts the display name back if and only if this chat named the tab and may still rename it, and sends no title and no announcement |
| `Herdr.WakesToRetry` | crates/sheprd-acp/src/herdr.rs:132-150 | Without mail the worker sends again what failed and otherwise does nothing |
| `Herdr.OnlySupersededAreLost` | crates/sheprd-acp/src/herdr.rs:53-76 | The mailbox refines a queue: every activity posted is in a group the worker took or waits, and the worker reports exactly the latest of each group |
| `Pending.PendingCommands.StartCommand` | ios/SheprdRemote/Pending.swift:50-58 | The object's start is the step function's |
| `Pending.PendingCommands.Finished` | ios/SheprdRemote/Pending.swift:62-78 | The object's reply is the step function's |
| `Pending.PendingCommands.PatienceOver` | ios/SheprdRemote/Pending.swift:73-77 | The first timer fails a command that is still only sent |
| `Pending.PendingCommands.MemoryOver` | ios/SheprdRemote/Pending.swift:114-117 | The second timer removes a command that is still failed |
| `Pending.PendingCommands.SettleKey` | ios/SheprdRemote/Pending.swift:82-84 | The object's settling is the step function's |
| `Pending.PendingCommands.DismissFailures` | ios/SheprdRemote/Pending.swift:101-103 | The object's dismissal is the step function's |
| `Pending.PendingCommands.Draw` | ios/SheprdRemote/Pending.swift:87-93 | The loop computes the overlay |
| `Pending.PendingCommands.Sync` | ios/SheprdRemote/Pending.swift:105-109 | Synced exactly when nothing is listed, failed exactly when something listed failed |
| `Pending.OnKeeps` | ios/SheprdRemote/Pending.swift:50-118 | Every step keeps at most one command per chat and slot, and a reply or timer to come for everything listed |
| `Pending.RunKeeps` | ios/SheprdRemote/Pending.swift:50-118 | So it holds in every reachable state |
| `Pending.EachGoesItsOwnWay` | ios/SheprdRemote/Pending.swift:50-118 | In every state that satisfies the invariant a step does to each listed command, in place, what that command and the step decide alone, and a started one is listed last with what it expects |
| `Pending.OnlyMovesOn` | ios/SheprdRemote/Pending.swift:62-118 | A command stays where it is or moves on, sending to sent to failed; its reply always moves it; what is gone never comes back |
| `Pending.DueDecreases` | ios/SheprdRemote/Pending.swift:62-118 | Every reply and every timer strictly decreases what is to come |
| `Pending.ListedIsAwaited` | ios/SheprdRemote/Pending.swift:62-118 | Whatever is listed has something to come, so once nothing is to come nothing is listed |
| `Pending.LateIsIgnored` | ios/SheprdRemote/Pending.swift:62-78 | The late reply or timer of a replaced command changes nothing listed |
| `Pending.InFlightStays` | ios/SheprdRemote/Pending.swift:80-84 | A command on its way is neither settled away nor dismissed |
| `Pending.OverlaidShows` | ios/SheprdRemoteCore/Sources/SheprdRemoteCore/Chat/Expected.swift:44-88 | A change that applies is shown by the transcript it is drawn on |
| `Pending.OverlaidOnly` | ios/SheprdRemoteCore/Sources/SheprdRemoteCore/Chat/Expected.swift:65-88 | A change that does not apply is not drawn, and one that does touches only what it is about |
| `Pending.EchoShows` | ios/SheprdRemoteCore/Sources/SheprdRemoteCore/Chat/Expected.swift:23-63 | The computer's own change, when it carries out a command, shows what the command was expected to |
| `Pending.SlotsAreApart` | ios/SheprdRemoteCore/Sources/SheprdRemoteCore/Chat/Expected.swift:34-88 | A change to one slot neither shows nor hides, allows nor rules out, one to another |
| `Pending.NewerReplaces` | ios/SheprdRemoteCore/Sources/SheprdRemoteCore/Chat/Expected.swift:34-88 | A change to the same slot leaves nothing of an earlier one |
| `Pending.ShownIsFixed` | ios/SheprdRemoteCore/Sources/SheprdRemoteCore/Chat/Expected.swift:44-88 | Drawing what the chat already shows changes nothing |
| `Pending.OverlayShows` | ios/SheprdRemote/Pending.swift:86-93 | The chat is drawn with every change that has not failed and has something to change |
| `Pending.SettlingIsUnseen` | ios/SheprdRemote/Pending.swift:80-103 | In every reachable state, settling by any rule under which what is shown of the chat is nothing expected or in its transcript, as that of ios/SheprdRemote/Fleet.swift:386-393 is while the chat is open, and dismissing leave the drawn chat as it is |
| `Sbom.AddRecords` | scripts/release/generate-sbom.py:61-77 | Merging records succeeds exactly while scopes are valid and bodies agree, and keeps the largest scope |
| `Sbom.AddRoots` | scripts/release/generate-sbom.py:57-60 | Shipped roots must agree and become required components |
| `Sbom.AddDependencies` | scripts/release/generate-sbom.py:78-79 | Each reference's edges are the union of those it has anywhere |
| `Sbom.Merge` | scripts/release/generate-sbom.py:43-86 | Fails exactly when roots or records of one reference differ, a scope is invalid or a reference dangles; otherwise it is the graph with largest scopes, united edges and roots in place of what they are linked as |
| `Sbom.OrderMakesNoDifference` | scripts/release/generate-sbom.py:43-86 | Documents with the same records, roots and edges merge to the same graph, or none does |
| `Sbom.ReorderedHasSameParts` | scripts/release/generate-sbom.py:57-79 | Platforms, shipped programs, records, dependencies and edges, each in any order, are the same parts |
| `Sbom.PermutationsReorder` | scripts/release/generate-sbom.py:57-79 | A permutation at any of these levels is such a reordering |
| `ReleaseNotes.ParseIsWritten` | ios/tools/testflight_notes.py:40 | A subject is read into parts if and only if those parts write it, with or without a line break at its end |
| `ReleaseNotes.HiddenExactly` | ios/tools/testflight_notes.py:57-71 | Testers miss exactly the subjects of a hidden type that neither break anything nor concern security |
| `ReleaseNotes.EntryIs` | ios/tools/testflight_notes.py:57-71 | A visible subject is listed in the group of its scope and type with its text, capital and without a number; one that is not conventional is a change as it stands |
| `ReleaseNotes.NumberGoes` | ios/tools/testflight_notes.py:41 | A pull request number at the end goes with the space before it |
| `ReleaseNotes.OthersStay` | ios/tools/testflight_notes.py:41 | A text without one stays as it is |
| `ReleaseNotes.VisibleIsDistinct` | ios/tools/testflight_notes.py:90-96 | The visible entries are those of the subjects, each once |
| `ReleaseNotes.Group` | ios/tools/testflight_notes.py:90-96 | The loop with `seen` groups the distinct entries in order |
| `ReleaseNotes.Compose` | ios/tools/testflight_notes.py:87-104 | Listed plus omitted is the distinct visible entries; each group lists a newest-first prefix, cut only once later groups are empty; the notes fit or list nothing, would not fit with one entry more, and read back as the source's first digits |
| `ReleaseNotes.RenderedSource` | ios/tools/testflight_notes.py:74-84 | The notes name the source on their last line and nowhere before |
| `ReleaseNotes.NotesListAll` | ios/tools/testflight_notes.py:74-84 | For one-line entries the lines of the notes list every entry that was not cut, under its group's heading, in order, and nothing else |
| `ReleaseNotes.NotesSayTheRest` | ios/tools/testflight_notes.py:80-84 | How many entries were cut is said when any were, and that there are none when there are none |
| `ReleaseNotes.NotesReadBack` | ios/tools/testflight_notes.py:87-134 | For one-line subjects and a hexadecimal source, the recorded digits are read back however many entries were cut |
| `ReleaseNotes.RecordedSource` | ios/tools/testflight_notes.py:128-134 | The first locale that names a source decides, and none does if and only if there is none |
| `Signature.RawSignature` | ios/tools/app_store_connect.py:24-40 | The loop computes the raw form or the error |
| `Signature.DerBecomesRaw` | ios/tools/app_store_connect.py:24-40 | For all r and s below 2^256, their DER (section 2.2.3 of RFC 3279, section 8.3 of X.690) becomes r and then s, 32 bytes big-endian each (section 3.4 of RFC 7518) |
| `Signature.RawReadsBack` | ios/tools/app_store_connect.py:24-40 | r and s read back from the raw form |
| `Signature.AcceptedKeepsNumbers` | ios/tools/app_store_connect.py:24-40 | Whatever DER is accepted has two integers where the source looks, and the raw form is 64 bytes whose halves spell their numbers |

## Left out

- Sockets, threads, processes, the terminal, the relay pump and the SwiftUI, widget and Watch code: input, output and wiring.
- JSON, regular expression, zip and XML libraries: the values they give and take are modelled.
- Overflow of 64-bit ids, sequence numbers and clocks: integers are unbounded.
- Transcripts.Position: the source's binary search is modelled by what it finds in an ordered list.
- Texts.ActivityClip: an activity's line is trimmed of ASCII white space only, not of Unicode's.
- Mirrors.EveryRunReplicates: assumes well-formed readings that keep the condition of `Diff.DiffSound`, and epochs not used before.
- Sessions.EveryRunResumes: a client that attaches holds nothing, something of another epoch, or what the session sent it up to any point.
- The session's commands, permissions, prompt queue, farewells and the handling of a repeated command: no replication property depends on them.
- Which updates count as to-do calls, how wire kinds and statuses map to the transcript's, and the command, session, usage and option updates: each is settled by one branch, so they enter as inputs or are left out.
- `pictures_after`, which adds images to a finished call's card: the session drops the change if the card was evicted meanwhile.
- An eviction between a call's card and its activity changes: it touches no activity, and comes between updates in the model.
- The phone's outgoing prompts and the cache: the cursor a diverged store would cache is the one `ChatStores.FailingBatchMovesCursor` describes.
- The phone's own reducer (ios/SheprdRemoteCore/Sources/SheprdRemoteCore/Chat/Change.swift:95-144) has no activity case: an activity change fails to decode there, which is not modelled; the store runs the shared reducer.
- PhoneSubscriptions.PhoneAlwaysFollows: a phone whose first cursor is one of the stream's is taken to hold that transcript, which is what it cached; a store that diverged or a cursor it would cache then is the subject of `ChatStores.FailingBatchMovesCursor`.
- PhoneSubscriptions.PhoneShowsTheMirror: one connection of the computer to a mirror, which resumes no one; reconnections are modelled for sessions.
- PhoneSubscriptions.InTurn: a subscription that is replaced sends nothing after the next one's opening; the abort that ends it is not modelled.
- KeepSortedFiles.ComputeProcess: a file is a sequence of lines, so line terminators are not modelled; case folding is any function.
- Locales.Generate: files, duplicate and malformed message ids and the text written are not modelled.
- Signing: zip handling, the signing action and the verification of a signature.
- The Bluetooth service's advertisement, read requests and the Bonjour half of the helper.
- NearbyHelper.Helper.SendMessage: a message of 65536 bytes or more, which traps in the source, is excluded.
- Herdr: the JSON of each call, and calls that only read; naming rules are any functions.
- Sbom.Merge: the sorted listing of what is merged, the format checks on reading and the targets property.
- ReleaseNotes.Compose: upper case and decimal digits are any functions, upper case giving no line break when it reads back.
