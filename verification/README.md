# Verified model of Fidus Writer's collaboration server

Fidus Writer lets many people edit one document at once. A central server numbers the accepted edits, relays them, keeps
a bounded log for those who fall behind, filters what each participant may see, saves now and then, and, for encrypted
documents, guards the epoch of the key. This project models that server and the pieces around it in Dafny and proves
what they promise, or exactly when they keep the promise.

`dafny verify dfyconfig.toml` checks everything.

## How it is laid out

The server:

- `Link.dfy`, `LinkRun.dfy`: one connection. Two counters, a resend buffer of ten, a resend that rewinds the server's
  counter and pushes the resent messages into the buffer a second time. `Link.Connection` is the object; the runs are
  about both ends over links that lose frames.
- `Documents.dfy`, `Session.dfy`: the data of a live session and its handlers as functions of it.
- `SessionObject.dfy`: the same handlers as the methods of the consumer object, with its participants and their
  connections updated in place, each method proved equal to its function.
- `Recipients.dfy`, `Sidecars.dfy`: what everyone is sent, and what title, comments, bibliography and images become,
  told from message, document and rights without the handlers' own functions.
- `Replay.dfy`: version, log and node as the history of accepted diffs; catching up; broadcasting.
- `Convergence.dfy`: the whole system for a readable document. Any number of clients join, edit, catch up, reload,
  leave and return.
- `Liveness.dfy`, `CatchUp.dfy`: a client that asks gets to the server's version by what it is answered, first with
  everything else quiet, then in every run. `Rejections.dfy`: a client whose diff is rejected comes to hear of it.
- `Saving.dfy`, `SaveGap.dfy`: the save that skips what it believes is saved, and what goes on while it waits for the
  database.
- `Epoch.dfy`, `SealedSession.dfy`: encrypted documents, with snapshots and re-keying, as functions and on the object.
- `SealedEffects.dfy`: who may re-key or send a snapshot, and every column and message that follows.
- `SealedRun.dfy`: the whole system for an encrypted document, clients included.
- `Comments.dfy`, `CommentRuns.dfy`: the comment map folded by the Python and the native server, the filter for each
  recipient, and what becomes of a comment over whole runs.
- `CommentOnly.dfy`: what senders who may only comment or read can change.
- `Authorization.dfy`: resolving rights on connecting and again later.

Beside the server:

- `Trees.dfy`, `Migration.dfy`, `MigrationMeaning.dfy`, `Migrator.dfy`: the migration of stored documents to 3.3.
- `Repair.dfy`, `Repairer.dfy`: the later repair of 3.3 documents.
- `Serialiser.dfy`: printing documents without default attributes.
- `Frames.dfy`: the benchmark client's WebSocket frames (RFC 6455).
- `DirectSaves.dfy`: saving without a session, and the covering diffs for a client that comes back.
- `Invites.dfy`, `Books.dfy`: rows of rights when an invitation is accepted and when a book is shared or saved, and
  paths nobody uses yet.
- `Prelude.dfy`, `Decimals.dfy`, `Access.dfy`: small shared definitions.

## Where the code does less than its comments or its callers suggest

Each of these is proved with an exact condition, or with a concrete input:

- A resend is faithful exactly when it does not go below the point an earlier resend started from
  (`ResendFaithfulIff`, `NextResendFaithfulIff`); below it, repetitions take the place of what is missing
  (`ResendBelowAnEarlierOne`).
- The two servers' resends differ when the client is level with the server or ahead of it (`ResendsAgree`).
- A resend that overflows the buffer replaces message `from + 1` by the refetch notice. The client's messages stay a
  prefix of the stream exactly as long as it had not taken that message and it was not on its way
  (`AcceptedIsPrefix`, `UncleanCutBreaksPrefix`, `UncleanCutIsReachable`).
- On a gap in the client's messages the server raises: it calls `send_json`, which its base class does not have.
- An accepted readable diff without a request id, with an entry that lacks a key or names what is not there, with a null
  title or copyright for an image, or with an update of an image by a guest or by a user who came by a share link,
  changes the document and is never relayed (`AcceptedReachesEveryoneIff`, `AcceptedUnheard`).
- What is accepted while a save waits for the database is marked as saved, and so is a half-done re-key (`SaveGapIff`,
  `SaveGapLosesTheDiff`).
- A re-key entry may lack the master-key flag: validation lets it through, the transaction is rolled back, the document
  in memory is not (`RekeyKeepsEpochIff`, `IncompleteRekeyStrandsHolders`).
- An encrypted document whose snapshot is out of the log's reach, or whose row is of another salt than the live document
  after a half-done re-key, cannot be brought up to date from what is loaded (`LoadingCatchesUpIff`).
- A question for the version that crosses a message to the client is not answered (`AnsweredInEveryRun`).
- Deleting an answer from the list under iteration leaves every second of neighbouring matches (`DeletesAllIff`), so
  the two servers' comment maps can differ (`StepsAgreeIff`).
- The native server ignores comment ids that are not text (`StepsAgreeIff`).
- The check that a review role sends only its own comment updates does not look at whose comment a new one replaces
  (`TwoDiffsRemoveAForeignComment`).
- The ownership flag is never read again: a former owner keeps writing (`RefreshAgreesIff`,
  `SessionAgreesIff`, `FormerOwnerKeepsWriting`).
- A logged-in user who came by a share link and is not the owner can connect, but reading their rights again looks up
  the wrapper in place of the user and raises: none of their frames that change something is handled
  (`LinkUserCannotBeReread`, `LinkUserIsNeverHandled`).
- An invitation can take rights away, although a comment in the code says it only upgrades (`NeverWorseIff`).
- An attribute is lost when Python takes it for its default without its being it (`RoundTripIff`,
  `FalseComesBackAsZero`).
- A collaborator's save of a book stops half way at a chapter of theirs on which the book's owner has no right
  (`CollaboratorIsCutShort`).
- A collaborator who saves a book can leave a chapter of the owner's closed to those the book is shared with
  (`CollaboratorKeepsClosedIff`).

## Modelling decisions

- A handler is one step: accepting and relaying a diff, a resend, a save, a re-key, the last participant leaving. The
  one suspension taken apart is the one inside a save (`SaveGap.dfy`). Connecting together with subscribing, and a
  client's reload, are one step too.
- Payloads are kept without the counters `c` and `s`. The code stamps them onto dictionaries that are shared with
  other buffers and the log; they are rewritten on every send and never read back.
- Applying one editing step is a parameter, a partial function that always gives the same result; `CommentOnly.dfy`
  also gives a flat engine. Salts, envelopes and ciphertext are opaque values, with equality only.
- Encoded inputs are modelled after decoding: a salt that is not valid base64 is an absent one, an `ep` that is not a
  string likewise. An exception that escapes from a handler is an effect with `ok` false.
- A frame whose handling raises is a step without further effect; what becomes of the connection then is up to the
  application server. A client whose connection goes joins again.
- Entries that come from the database are part of what is handled: whether the sender has an image is a flag of the
  image update, the holders who may get a key are a parameter.
- The client is not in the repository. It is modelled as the mirror of `receive`: it takes the next number, ignores
  lower ones, asks for a resend on a gap, and applies a diff only at its own version. It has one diff waiting for
  confirmation at a time and gives every diff a new request id. For encrypted documents it may hear anything it was
  ever sent at any time, and takes an envelope only at its version and with the salt it has loaded.
- Trees are values: the migrations' rewriting of dictionaries in place is a method that returns the new node; the
  counter they share is a field, updated in place.

## Model

| member | source | states |
|---|---|---|
| `Link.Connection.SendMessage` | fiduswriter/base/base_consumer.py:236-256 | A send takes the next server number, stamps the client counter, and keeps the last ten payloads. |
| `Link.Connection.ResendMessages` | fiduswriter/base/base_consumer.py:261-280 | The loop of sends after the rewind puts on the wire, and leaves in the buffer, what the closed form of a resend says, for every `from`, also above and at the counter. |
| `Link.Connection.ReceiveMessage` | fiduswriter/base/base_consumer.py:164-225 | Every frame is ignored, answered, denied, rejected after a resend, or handled as the counters say, or raises, for want of a counter or, on a gap, of the method that would ask for the lost messages; only the rejected and the handled move the client counter. |
| `Link.SendAllAppend` | native/src/protocol.rs:34-47 | A batch is its sends one at a time: trimming to ten after each is trimming once at the end. |
| `Link.ResendsAgree` | native/src/protocol.rs:60-69 | The Python and the native resend agree exactly when the client is behind, or level with an empty buffer. |
| `LinkRun.ExactlyOnce` | fiduswriter/base/base_consumer.py:187-225 | For any frames and any sends in between, the consumed messages are numbered without gap or repeat and are those an independent in-order selection picks; each is handled or rejected, not both. |
| `LinkRun.FrameIs` | fiduswriter/base/base_consumer.py:164-225 | Every kind of frame, told from its counters: the verdict, the frames sent and the counters afterwards. |
| `LinkRun.SendIs` | fiduswriter/base/base_consumer.py:236-256 | A send is numbered one higher and is the last of at most ten buffered. |
| `LinkRun.ResendStaysAligned` | fiduswriter/base/base_consumer.py:261-280 | A resend from no lower than an earlier one emits exactly the logical messages from+1 to the last with their numbers, or cuts the stream at `from` and appends the refetch. |
| `LinkRun.ResendFaithfulIff` | fiduswriter/base/base_consumer.py:270-280 | In a state whose messages can be told apart, what a resend emits is the missing part of the stream if and only if it starts no lower than the last resend did. |
| `LinkRun.NextResendFaithfulIff` | fiduswriter/base/base_consumer.py:236-280 | The same after every history of a new connection: any sends of new messages, and any resends none of which went below the one before. |
| `LinkRun.ResendBelowAnEarlierOne` | fiduswriter/base/base_consumer.py:270-280 | Three messages, a resend from 2 and one from 1: the third comes twice, the second never. |
| `LinkRun.AcceptedIsPrefix` | fiduswriter/base/base_consumer.py:164-280 | Over links that lose frames both ways, in every run whose cuts are clean the client has taken a prefix of the logical stream. |
| `LinkRun.UncleanCutBreaksPrefix` | fiduswriter/base/base_consumer.py:270-280 | From any invariant state, a cut that is not clean leads, by mere delivery, to a client whose messages are not a prefix. |
| `LinkRun.UncleanCutIsReachable` | fiduswriter/base/base_consumer.py:236-280 | A run from a new connection gets there: eleven messages on their way, and a message the client sent before it had any; delivery then leaves the client without a prefix. |
| `LinkRun.ResendRecovers` | fiduswriter/base/base_consumer.py:261-280 | A resend request answered with nothing else in flight brings the client to the end of the stream. |
| `Session.ApplyConcat` | fiduswriter/document/prosemirror.py:25-43 | Applying two batches of steps is applying them one after the other, and a failure anywhere fails the whole. |
| `Session.ApplyNoneOrOne` | fiduswriter/document/prosemirror.py:25-43 | No steps leave the node alone and one step is the engine's; with the row above this says what any batch does. |
| `Session.Apply` | fiduswriter/document/prosemirror.py:25-43 | The loop with its early exit gives the fold of the steps or nothing. |
| `Session.NewIdIsFresh` | fiduswriter/document/consumers.py:252-253 | One more than the largest participant id is no participant's. |
| `SessionObject.DeliverTwice` | fiduswriter/document/consumers.py:1409-1492 | What two rounds of sending leave on every wire and in every buffer is what one round of both messages would. |
| `SessionObject.Participants.SendUpdates` | fiduswriter/document/consumers.py:1409-1492 | The broadcast loop sends everyone but the sender one copy, filtered for that recipient's rights, and touches no other connection. |
| `SessionObject.Participants.SendParticipantList` | fiduswriter/document/consumers.py:1329-1382 | Exactly those who may communicate get the list. |
| `SessionObject.Participants.RequestSnapshot` | fiduswriter/document/consumers.py:1237-1253 | The first participant with `write`, in the order of joining, is asked, and nobody else. |
| `SessionObject.DocumentSession.WriteColumns` | fiduswriter/document/helpers/document_store.py:72-160 | The columns written under either engine, and whether the save was skipped. |
| `SessionObject.DocumentSession.SaveDocument` | fiduswriter/document/consumers.py:1494-1511 | The flags after the save, tied to the save function that `Saving` reasons about. |
| `SessionObject.DocumentSession.ReconcileVersion` | fiduswriter/document/consumers.py:337-409 | Confirmation, the missing diffs in a loop, or save and refetch; state and wires equal the check function's. |
| `SessionObject.DocumentSession.ResetCollaboration` | fiduswriter/document/consumers.py:1384-1407 | Everyone but the sender gets a refetch and the error; the saves inside do nothing, since the sender's has just been made. |
| `SessionObject.DocumentSession.AcceptCiphertext` | fiduswriter/document/consumers.py:834-878 | Salt and envelope checks, log, version, request for a snapshot, confirmation, broadcast, in that order on every wire. |
| `SessionObject.DocumentSession.AcceptReadable` | fiduswriter/document/consumers.py:879-936 | Steps, log, sidecar updates, periodic save, confirmation, filtered broadcast, or the reset when a step fails. |
| `SessionObject.DocumentSession.ApplyUpdates` | fiduswriter/document/consumers.py:913-922 | Title, comments, bibliography and images in this order, stopping at the first that raises with the earlier ones applied. |
| `SessionObject.DocumentSession.ApplyCommentUpdates` | fiduswriter/document/consumers.py:614-673 | The comment entries on the live document, and whether one raised. |
| `SessionObject.DocumentSession.ApplyBibliographyUpdates` | fiduswriter/document/consumers.py:596-604 | The bibliography entries on the live document, and whether one raised. |
| `SessionObject.UpdateEntries` | fiduswriter/document/consumers.py:596-604 | The bibliography loop, with the three ways in which it raises. |
| `SessionObject.UpdateRows` | fiduswriter/document/helpers/document_store.py:239-284 | The loop over image updates, with the ways in which it raises (a missing key, an id that is no number, a null title or copyright, a sender that is no user of the database) and the rows it has changed by then. |
| `Session.SidecarsOkIff` | fiduswriter/document/consumers.py:913-922 | The updates of a diff run to their end if and only if every entry has the keys its branch reads and names only what exists at its turn, and every update of an image comes from a user of the database and, if the sender has the image, brings a title and a copyright that are not null. |
| `SessionObject.DocumentSession.HandleDiffMessage` | fiduswriter/document/consumers.py:789-974 | The whole handler: session state and all connections afterwards equal the specification's, for every diff. |
| `SessionObject.DocumentSession.ReceiveText` | fiduswriter/base/base_consumer.py:164-228 | One frame from counters to handler: the object's state and all wires are those of `receive` followed by the dispatch. |
| `SessionObject.DocumentSession.Subscribe` | fiduswriter/document/consumers.py:233-331 | A new participant gets a fresh id, the document is opened from its row if nobody is there, and the greeting, the reconciliation and the list follow. |
| `SessionObject.DocumentSession.Disconnect` | fiduswriter/document/consumers.py:1261-1327 | The last one out saves; otherwise exactly the remaining ones hear who is left. |
| `Replay.VersionCountsAccepted` | fiduswriter/document/consumers.py:833-936 | The version moves by one exactly when the diff is accepted, and log and node move exactly then, whatever sidecars, saves or exceptions follow. |
| `Replay.DiffKeepsFaithful` | fiduswriter/document/consumers.py:833-936 | Version, node and log stay the length, the fold and the last thousand of the history, for every diff anyone sends. |
| `Replay.MissingIsTheTail` | fiduswriter/document/consumers.py:357-380 | The slice sent to a client is exactly the accepted diffs from its version on, in order. |
| `Replay.CatchUpReachesTheServer` | fiduswriter/document/consumers.py:337-409 | Replaying what is sent takes a client from its own node to the server's; outside the log it only gets a refetch. |
| `Replay.StaleDiffIsAnswered` | fiduswriter/document/consumers.py:937-965 | A diff on an older version leaves the session alone, and its answer takes the sender to the server's node. |
| `Replay.HearRun` | fiduswriter/document/consumers.py:946-957 | A client fed consecutive true diffs stays on the server's path to the end of them. |
| `Replay.AcceptedReachesEveryoneIff` | fiduswriter/document/consumers.py:833-936 | An accepted diff gives one frame to every other participant and one confirmation to a sender with a request id if and only if the document is encrypted, or the diff has a request id and its comment, bibliography and image entries have the keys their branches read and name only what exists at their turn, with every update of an image from a user of the database and, for an image the sender has, with a title and a copyright that are not null. |
| `Replay.AcceptedUnheard` | fiduswriter/document/consumers.py:905-936 | Accepted diffs of a writer that nobody hears of: without a request id, with an image entry and with a bibliography entry that lack their type, with a null title and with a null copyright for an image, and with any update of an image by a guest or a user who came by a share link. |
| `Replay.EncryptedReachesEveryone` | fiduswriter/document/consumers.py:834-878 | For encrypted documents this needs no condition. |
| `Replay.OneWriterIsAsked` | fiduswriter/document/consumers.py:1237-1253 | A snapshot is asked of one participant, the first with `write`, exactly when the version has reached a multiple of the interval. |
| `Replay.FirstWriterIsFirst` | fiduswriter/document/consumers.py:1237-1253 | The one found is the first with `write` in the order of joining. |
| `Recipients.NoWriterIsAsked` | fiduswriter/document/consumers.py:1237-1253 | Without a participant with `write` nobody is found. |
| `Recipients.AcceptedIff` | fiduswriter/document/consumers.py:789-936 | The version moves on exactly for a diff on the current version that is not passed over (readable where encryption is required, more than comments from someone who may only comment, others' comments from someone who may only manage their own) and carries the document's salt and an envelope, or steps that can be applied. |
| `Recipients.LogIs` | fiduswriter/document/consumers.py:859-912 | What is accepted comes last in a log of at most a thousand, otherwise the log stays. |
| `Recipients.PassedOverIsSilent` | fiduswriter/document/consumers.py:797-832 | A diff that is passed over changes nothing and nobody hears of it. |
| `Recipients.WrongSaltIsRejected` | fiduswriter/document/consumers.py:411-415 | An encrypted diff on the current version with a missing or wrong salt or no envelope: its sender alone is sent the rejection with its request id, nothing changes; without one the handler raises. |
| `Recipients.CrossedDiffIsRejected` | fiduswriter/base/base_consumer.py:202-222 | The same for a diff whose frame has crossed a message of the server's. |
| `Recipients.FailedStepsReachEveryone` | fiduswriter/document/consumers.py:1384-1407 | Steps that cannot be applied: every participant, the sender too, is sent a refetch and whose diff it was; version, log and node stay. |
| `Recipients.OldDiffIsAnswered` | fiduswriter/document/consumers.py:937-974 | A diff on an older version gets what was accepted since, as its sender may see it; one out of reach, or ahead, a refetch. |
| `Recipients.ReadableDiffIsShown` | fiduswriter/document/consumers.py:1409-1492 | An accepted readable diff: one confirmation to the sender, and to everyone else the diff alone, the same in every field but the comment entries: none for `read-without-comments`; for the review roles exactly, and in order, those of their own, assigned to them, or deleting a comment that is theirs or not there; all for the others. If an update raises or there is no request id, nobody is sent anything. |
| `Recipients.SealedDiffIsRelayed` | fiduswriter/document/consumers.py:859-878 | An accepted encrypted diff: as it came to everyone else, a confirmation to the sender, and before these the request for a snapshot to the first writer when the version is a multiple of the interval. |
| `Recipients.QuestionIsAnswered` | fiduswriter/document/consumers.py:337-409 | A question gets a confirmation, or what was accepted since, as the asker may see it, and a confirmation, or a refetch; without a version the handler raises; nobody else is sent anything. |
| `Recipients.OtherFramesAreSilent` | fiduswriter/document/consumers.py:547-594 | A diff from someone who may only read, and whatever is neither diff nor question, changes nothing and is not answered. |
| `Recipients.HandledFramesAreHandled` | fiduswriter/document/consumers.py:547-594 | Diffs from all other rights, and all questions, get to their handlers. |
| `Recipients.GreetingIs` | fiduswriter/document/consumers.py:233-331 | What a joining or reconnecting participant and everyone else are sent, message by message. |
| `Recipients.ListIs` | fiduswriter/document/consumers.py:1329-1382 | The list goes to those with `read`, `write`, `comment` or `write-tracked`. |
| `Rejections.RejectedInEveryRun` | fiduswriter/base/base_consumer.py:202-222 | In every run: once the server has come to a diff that has crossed a message the buffer still holds, and the client has taken what it was sent, it no longer waits for that diff, whatever the others do. |
| `Sidecars.DiffIsTold` | fiduswriter/document/consumers.py:913-922 | Title, comments, bibliography and images after an accepted diff, in all cases: each stage only if none before has raised, and the handler returns exactly if none has and there is a request id. |
| `Sidecars.BibliographyIs` | fiduswriter/document/consumers.py:596-604 | After a batch each reference is that of the last entry, among those carried out, that sets or deletes it, and untouched if there is none; the batch stops at the first entry without a type, without a reference to set, or deleting what is not there at its turn. |
| `Sidecars.ImagesAre` | fiduswriter/document/helpers/document_store.py:239-284 | The same for the image rows. |
| `Sidecars.CommentsAre` | fiduswriter/document/consumers.py:614-673 | A batch of comment entries: what each makes of every field, of the answers and of all other comments, up to the one that raises. |
| `Sidecars.NativeStepDoes` | native/src/session.rs:133-247 | The same for one entry on the native server. |
| `Convergence.EveryRunConverges` | fiduswriter/document/consumers.py:789-974 | In every run from a stored document, with clients joining, editing, catching up, reloading, leaving and returning over links that lose, repeat and reorder: the server's node is the fold of all accepted diffs, every client's document is the fold up to its version, equal versions mean equal documents. |
| `Convergence.StepKeepsInv` | fiduswriter/document/consumers.py:233-974 | The invariant behind it: everything buffered or in flight tells the truth about the history, and a request id belongs to one diff. |
| `Convergence.DiffMailIsTruthful` | fiduswriter/document/consumers.py:833-974 | Whatever a diff leads to, every message it causes, for every recipient, agrees with the history it leaves. |
| `Convergence.HandlesIsDispatch` | fiduswriter/document/consumers.py:547-594 | The server's step in these runs is the function that the consumer object is proved to implement. |
| `CatchUp.AnsweredInEveryRun` | fiduswriter/document/consumers.py:337-409 | In every run: a client with a drained link asks, and from then on its link keeps order and it sends nothing else, while everybody else edits, asks, joins, leaves or loses frames. The question is taken up if and only if nothing has been sent to the client since. If it is, then within the reach of the log the client that has taken all it was sent is, by the answer alone, where the server was when it took the question, or further, on the server's path, and equal to the server if nothing was accepted since; outside it is told to refetch, and the row never is older than that again. |
| `Liveness.AskingCatchesUp` | fiduswriter/document/consumers.py:337-409 | The exact steps for one drained client: it asks, the server takes the question, it takes as many frames as the missing diffs and the confirmation are, and it reloads exactly when the log does not reach back to it, after a single refetch; then it is at the server's version, and nobody else is touched. |
| `Liveness.DrainedRunsCatchUp` | fiduswriter/document/consumers.py:337-409 | From every reachable state whose links are drained, these steps, for any clients in any order, take each to the server's version and document; whoever is within reach of the log does not reload. |
| `Saving.SaveRefinesWritingEverything` | fiduswriter/document/helpers/document_store.py:72-160 | After any save, skipped or not, forced or not, under either engine, every column of the row equals the live session. |
| `Saving.SaveIs` | fiduswriter/document/helpers/document_store.py:72-160 | Every flag and column after a save from any state, under either engine, and when it is skipped. |
| `Saving.StaleContentNeverWritten` | fiduswriter/document/helpers/document_store.py:24-38 | The content column only ever changes to what the engine holds now. |
| `Saving.DiffKeepsSound` | fiduswriter/document/consumers.py:879-936 | Every diff keeps the flags in step with the row, also while a save is under way. |
| `Saving.EveryIntervalIsSaved` | fiduswriter/document/consumers.py:923-929 | A diff that can be relayed and brings the version to a multiple of the interval leaves the row equal to the live session. |
| `Saving.TitleIsStoredAtOnce` | fiduswriter/document/helpers/document_store.py:62-69 | A new title is in the row at once, cut to its last 255 characters, whether or not a save follows. |
| `Saving.RefetchFindsTheRow` | fiduswriter/document/consumers.py:337-415 | Whenever a diff makes anyone refetch, the row is the live document by then. |
| `Saving.AskingFindsTheRow` | fiduswriter/document/consumers.py:337-409 | The same for a question. |
| `Saving.OverflowFindsTheRow` | fiduswriter/base/base_consumer.py:261-280 | The same for a resend that overflows the buffer. |
| `Saving.DiffFlushesIff` | fiduswriter/document/consumers.py:873-974 | Handling one diff leaves the row level with the document if and only if it flushes, or is not accepted and found them level. |
| `SaveGap.SaveGapIff` | fiduswriter/document/consumers.py:1494-1511 | Whatever diffs, version checks, joins, snapshots, re-keys and further saves are handled between the write and its return, the flags are trustworthy afterwards if and only if nothing waits then: no accepted diff that nothing later has written, no half-done re-key. What waits after each event is read off the guards of the branches that write. |
| `SaveGap.EventInGap` | fiduswriter/document/consumers.py:789-1235 | One event of that kind: the row is the live document afterwards exactly when nothing waits. |
| `SaveGap.SaveGapLosesTheDiff` | fiduswriter/document/consumers.py:1494-1511 | One accepted diff in the gap, and the save at the last leave is skipped: the row stays a version behind. |
| `Epoch.LogsHoldInEveryRun` | fiduswriter/document/consumers.py:834-1235 | In every run, re-keys that fail half way included, every logged diff carries the document's salt, the snapshot is not ahead of the version, and the log is that of the last versions without a gap, in memory and in the row. |
| `Epoch.CatchUpIsExactInEveryRun` | fiduswriter/document/consumers.py:337-409 | In every reachable state of an encrypted document a client that asks gets exactly the diffs of versions v to version-1, all of the current salt, and a confirmation, or only a refetch. |
| `Epoch.EpochHoldsInCompleteRuns` | fiduswriter/document/consumers.py:1099-1235 | In every run whose re-keys that are carried out are complete, document, row and every key row are of one epoch. |
| `Epoch.LogIsTheTail` | fiduswriter/document/consumers.py:834-1235 | In such runs the log is the end of what was accepted since the last re-key. |
| `Epoch.CompleteRekey` | fiduswriter/document/consumers.py:1099-1235 | A complete re-key empties the log, loses no holder, and leaves exactly its own key rows. |
| `Epoch.RekeyKeepsEpochIff` | fiduswriter/document/consumers.py:1165-1211 | A re-key that reaches the transaction keeps the epoch if and only if every entry has the flag or the salt is unchanged. |
| `Epoch.IncompleteRekeyStrandsHolders` | fiduswriter/document/consumers.py:1165-1235 | After an incomplete one, the next snapshot stores the new salt, and no holder's envelope fits it. |
| `Epoch.WrittenKeys` | fiduswriter/document/consumers.py:1201-1210 | The loop writes one row for each holder named, of the new epoch, and touches no other. |
| `SealedEffects.RekeyIs` | fiduswriter/document/consumers.py:1099-1235 | A re-key is carried out exactly if it comes from the owner of an encrypted document, with encryption on, under a salt of at least 16 bytes and 100000 iterations, for the current version, all state as text, with a usable envelope for every present holder and none for anyone without access. Then every column, key row (the last entry for each holder) and message is told; otherwise nothing changes and nobody is sent anything. |
| `SealedEffects.SnapshotIs` | fiduswriter/document/consumers.py:976-1097 | A snapshot is taken exactly from a writer, with the document's salt, iterations and version; then comments, bibliography and title are those it brings (emptied, or kept for the title, if it brings none), every other column stays, the row is the document, and everyone else is told. Otherwise nothing changes; the case in which the handler raises is told too. |
| `SealedRun.EverySealedRunConverges` | fiduswriter/document/consumers.py:789-1235 | In every run of an encrypted document with honest clients that join, edit, send snapshots, re-key (half way too), reload and leave, over links that lose, repeat and reorder at will: clients at the same version have the same document, what a client has taken with its key are the accepted envelopes of that key's salt from there on, in order, and the stored content, in memory and in the row, opens to the document of the snapshot's version. |
| `SealedRun.MoveKeepsInv` | fiduswriter/document/consumers.py:789-1235 | The invariant behind it: every message ever sent tells the truth about the accepted envelopes, every log entry is one of them, and whatever a client has given out was made on the document of its version. |
| `SealedRun.LoadingCatchesUpIff` | fiduswriter/document/views.py:1656-1667 | The view promises that a client rebuilds an encrypted document from the last snapshot and the covering diffs. In every reachable state this holds if and only if the stored snapshot is of the current version, or is of the live document's salt and within reach of the log. |
| `SealedRun.DiffMailIsTruthful` | fiduswriter/document/consumers.py:834-965 | Whatever an encrypted diff leads to, each message it causes, for every recipient, agrees with the history it leaves. |
| `SealedRun.WrongSaltIsAnswered` | fiduswriter/document/consumers.py:842-858 | In the whole system: a diff of another salt leaves the server as it was, and its sender alone is sent the rejection. |
| `SealedSession.SealedDocument.HandleSnapshotMessage` | fiduswriter/document/consumers.py:976-1097 | The snapshot handler on the session object: fields, forced save and notices equal the specification's. |
| `SealedSession.SealedDocument.HandleRekeyMessage` | fiduswriter/document/consumers.py:1099-1235 | The re-key handler: the document in memory, the rows, the key rows and all wires equal the specification's. |
| `SealedSession.SealedDocument.WriteRows` | fiduswriter/document/consumers.py:1188-1211 | The loop over the entries: it commits exactly when every one has the flag, and otherwise leaves row and key rows as they were. |
| `Epoch.CatchUpCarriesSalt` | fiduswriter/document/consumers.py:337-409 | Whatever row and key rows say, every diff sent for catching up carries the live document's salt. |
| `Epoch.CiphertextStays` | fiduswriter/document/consumers.py:1041-1079 | Stored ciphertext stays ciphertext, in memory and in the row, through every run, incomplete re-keys included. |
| `Epoch.SavesRefineInEveryRun` | fiduswriter/document/consumers.py:1494-1511 | After any run with snapshots and complete re-keys too, the next save leaves the row equal to the live session. |
| `Comments.StepsAgreeIff` | native/src/session.rs:133-247 | An update that Python carries out has the same effect on the native server if and only if its comment id is text or it changes nothing, assignee fields come in pairs, and a deleted or changed answer's id is text, with no neighbouring answers sharing a deleted one, or matches nothing that would change. Ids are compared as Python does, `True` being `1`. |
| `Comments.FoldsAgree` | fiduswriter/document/consumers.py:614-673 | On a batch of such updates both servers end with the same comment map. |
| `Comments.DeletesAllIff` | fiduswriter/document/consumers.py:662-668 | Removing while iterating removes all matches if and only if no two are neighbours. |
| `Comments.TwinAnswerSurvives` | fiduswriter/document/consumers.py:662-668 | Of two equal answers one stays. |
| `Comments.StepKeepsIff` | fiduswriter/document/consumers.py:614-673 | One entry leaves a comment as it is if and only if it does not name it or, by its kind, has nothing to change. |
| `Comments.FoldOkIff` | fiduswriter/document/consumers.py:614-673 | A batch runs to its end if and only if every entry has its keys and finds what it names at its turn. |
| `Comments.UnnamedUntouched` | native/src/session.rs:133-247 | A comment that a batch does not name is untouched by both, even when Python stops half way. |
| `Comments.DeleteAnswerLoop` | fiduswriter/document/consumers.py:662-668 | The loop over a list that shrinks under it. |
| `Comments.UpdateOne` | fiduswriter/document/consumers.py:616-673 | One update's assignments in their order, and every way in which one raises. |
| `Comments.UpdateComments` | fiduswriter/document/consumers.py:614-673 | The loop over the batch. |
| `Comments.NativeUpdateComments` | native/src/session.rs:133-247 | The native loop, with `retain` for deleted answers. |
| `Comments.KeepsExactlyTheVisible` | fiduswriter/document/helpers/comment_filter.py:15-60 | The filter keeps each visible entry as often as it occurs, and nothing else. |
| `Comments.OwnUpdatesAreVisible` | fiduswriter/document/consumers.py:762-787 | A batch that passes the ownership check is one that its sender may also see in full. |
| `Comments.ValuesAre` | fiduswriter/document/helpers/comment_filter.py:15-30 | What `str()` and `==` make of values that are not text. |
| `CommentOnly.RestrictedRunSpares` | fiduswriter/document/consumers.py:746-820 | In any run of a readable document whose senders may only review, comment or read, text and other marks, title, bibliography and images never change, in the session and in the row. |
| `CommentOnly.CommentersSpareTheText` | fiduswriter/document/consumers.py:746-820 | The same, outright, for an engine of characters with sets of marks. |
| `CommentOnly.OthersCanRetitle` | fiduswriter/document/consumers.py:746-820 | The set of rights is sharp: any other right lets its holder change the title. |
| `CommentRuns.CommentKeepsIff` | fiduswriter/document/consumers.py:614-673 | In any run, whoever sends, a comment keeps its value at every moment, between the entries of a batch as well, if and only if no entry carried out of an accepted diff names its id and, by its kind, would change it. |
| `CommentRuns.BatchKeepsIff` | fiduswriter/document/consumers.py:614-673 | The same for one batch, up to the entry that raises. |
| `CommentRuns.TwoDiffsRemoveAForeignComment` | fiduswriter/document/consumers.py:771-787 | The ownership check does not look at whose comment a `create` replaces: two diffs of a review role that pass it replace another user's comment and then delete it. |
| `CommentRuns.OneDiffDeletesNoForeignComment` | fiduswriter/document/consumers.py:762-787 | All the check ensures: after one diff of a review role there still is a comment, not necessarily the same, with the id of each of the other users' comments. |
| `CommentOnly.LegacyRunChangesNothing` | fiduswriter/document/consumers.py:797-805 | Where encryption is required, no run changes a readable document, whoever sends: text, title, bibliography, images, version, log and comments stay, in the session and in the row. |
| `Authorization.RefreshAgreesIff` | fiduswriter/document/consumers.py:479-545 | Reading the rights again agrees with connecting again if and only if it does not look up the wrapper of a token user, which raises for every token user not flagged as owner, and the ownership flag is still right or the rights granted otherwise are `write`. |
| `Authorization.LinkUserCannotBeReread` | fiduswriter/document/consumers.py:516-518 | A user without a right of their own comes by an active link that grants `write`: connecting gives `write`, reading again raises. |
| `Authorization.LinkUserIsNeverHandled` | fiduswriter/document/consumers.py:452-573 | Whatever the database does, a session of a token user who was not the owner on connecting goes through all frames and notifications unchanged, and no mutating frame of it is handled. |
| `Authorization.SessionAgreesIff` | fiduswriter/document/consumers.py:452-545 | Over a whole session from its connection on, a notification leaves it with what connecting again would give if and only if a token user owned the document at the start, and the user owns it then exactly if they did at the start or is granted `write` anyway. |
| `Authorization.ConnectIsGranted` | fiduswriter/document/helpers/session_user_info.py:46-163 | A connection gets the better of what token and direct right grant, and ownership counts as `write`. |
| `Authorization.FormerOwnerKeepsWriting` | fiduswriter/document/consumers.py:513-515 | After a handover the previous owner's open session keeps `write` while a new one is refused. |
| `Authorization.RightsAreNeverStale` | fiduswriter/document/consumers.py:464-573 | Whatever the database does, a mutating frame that gets past the reading of the rights is handled with rights read less than the interval ago, or at that very moment when the interval is not positive. |
| `Authorization.FreshRightsAreKept` | fiduswriter/document/consumers.py:464-492 | Within the interval a frame does not read the rights again. |
| `Authorization.GuestGetsInIff` | fiduswriter/document/helpers/token_access.py:25-50 | A guest gets in, and is refreshed, with a token's right exactly if the token is there, active, for this document and not past its time. |
| `Authorization.UserGetsIn` | fiduswriter/document/helpers/session_user_info.py:118-163 | A user without a token gets in as the owner with `write`, otherwise with the right of their row, or not at all. |
| `Authorization.RankingIs` | fiduswriter/document/helpers/session_user_info.py:75-92 | The order of rights. |
| `Authorization.Consumer.InitializeAccess` | fiduswriter/document/helpers/session_user_info.py:46-163 | The branches that assign rights and ownership. |
| `Authorization.Consumer.RefreshAuthorization` | fiduswriter/document/consumers.py:479-545 | The branches that read again, when they are skipped, and the one that raises. |
| `MigrationMeaning.ReadsTheSame` | fiduswriter/document/migrations/0003_fidus_3_3.py:17-103 | The migrated tree read as 3.3 shows exactly what the old one read as 3.2 showed: structure, text, marks, attributes, captions, and image before equation. |
| `MigrationMeaning.RunIdsAreDistinct` | fiduswriter/document/migrations/0003_fidus_3_3.py:17-103 | Over a whole run every list and table has an id, and no two are equal. |
| `MigrationMeaning.IdsAreNumbered` | fiduswriter/document/migrations/0003_fidus_3_3.py:22-36 | The ids are the numbers after the counter, one each, in the order of visiting. |
| `Trees.PaddedIsInjective` | fiduswriter/document/migrations/0003_fidus_3_3.py:26-34 | The zero-padded format tells all counters apart, beyond eight digits as well. |
| `MigrationMeaning.MigratedIsShaped` | fiduswriter/document/migrations/0003_fidus_3_3.py:28-88 | Everywhere in the result: lists have an id with an L, tables one with a T, a caption switched off and a body, figures their two children in the order of the category and none of the old attributes, no cell is empty. |
| `Migration.RewritingIsLighter` | fiduswriter/document/migrations/0003_fidus_3_3.py:29-94 | What the recursion descends into after wrapping is lighter than the node, which is why it ends. |
| `Migration.UpdateIsMigrated` | fiduswriter/document/migrations/0003_fidus_3_3.py:17-103 | Descending into content just wrapped gives the same as migrating the content first; the counter moves by the number of lists and tables. |
| `Migrator.IdCounter.Update` | fiduswriter/document/migrations/0003_fidus_3_3.py:17-103 | The recursive method with the shared counter. |
| `Migrator.IdCounter.UpdateEach` | fiduswriter/document/migrations/0003_fidus_3_3.py:92-103 | The loops over children, and over the documents of a run. |
| `Migrator.RewriteFigure` | fiduswriter/document/migrations/0003_fidus_3_3.py:46-88 | The assignments that turn a figure's attributes into its children. |
| `Repair.RepairIsIdempotent` | fiduswriter/document/migrations/0007_fix_fidus_3_3.py:94-111 | Repairing twice is repairing once wherever the counter stands, and the repair changes nothing if and only if the tree is sound. |
| `Repair.FixIsIdempotent` | fiduswriter/document/migrations/0007_fix_fidus_3_3.py:16-91 | The same for embedded `initial` content. |
| `Repair.MigratedNeedsNoRepair` | fiduswriter/document/migrations/0007_fix_fidus_3_3.py:16-111 | What the migration has produced the repair leaves as it is. |
| `Repair.RepairIsTheMigration` | fiduswriter/document/migrations/0007_fix_fidus_3_3.py:16-91 | On content the migration has missed altogether the repair is the migration. |
| `Repairer.RepairCounter.FixInitialNode` | fiduswriter/document/migrations/0007_fix_fidus_3_3.py:16-91 | The recursive method for embedded content, with its counter. |
| `Repairer.RepairCounter.RepairOne` | fiduswriter/document/migrations/0007_fix_fidus_3_3.py:94-111 | The recursive method for documents. |
| `Serialiser.RoundTripIff` | fiduswriter/document/prosemirror.py:46-79 | Filling in defaults gives a printed node back if and only if everything left out had a default and was it to the letter, and no content consists of empty text only. |
| `Serialiser.AttrsRoundTripIff` | fiduswriter/document/prosemirror.py:55-59 | The same for the attributes of one node or mark. |
| `Serialiser.FalseComesBackAsZero` | fiduswriter/document/prosemirror.py:55-59 | A `False` where the default is `0` comes back as `0`. |
| `Frames.ParseIsIncremental` | native/bench/h2_full.py:83-102 | Reading a stream in two parts, the second from the remainder of the first, gives what reading it whole gives. |
| `Frames.RemainderIsIncomplete` | native/bench/h2_full.py:83-102 | The remainder starts with no whole frame, and all bytes before it are whole frames. |
| `Frames.StreamRoundTrip` | native/bench/h2_full.py:83-102 | Printed frames of any length form, followed by an incomplete one, are read back as they were printed. |
| `Frames.NoFrameTooEarly` | native/bench/h2_full.py:83-102 | No beginning of a frame is taken for a whole one. |
| `Frames.ClientFrameRoundTrip` | native/bench/h2_full.py:69-80 | A masked frame read as section 5.3 of RFC 6455 says gives the payload. |
| `Frames.MaskTwice` | native/bench/h2_full.py:70-71 | Masking is its own inverse. |
| `Frames.PrintClientFrame` | native/bench/h2_full.py:69-80 | The header built by appending is the header of section 5.2 of RFC 6455. |
| `Frames.HeaderIs` | native/bench/h2_full.py:69-80 | The header byte by byte, for the three forms of the length. |
| `Frames.XorBit` | native/bench/h2_full.py:70-71 | Masking bit by bit. |
| `Frames.ServerFrames` | native/bench/h2_full.py:83-102 | The loop computes the recursive reading. |
| `Frames.Client.Receive` | native/bench/h2_full.py:157-185 | However the bytes arrive, frames are handed out once each and in order; nothing is returned only when no whole frame is to come, or when the read just made timed out, and then nothing is lost. |
| `DirectSaves.CoveringIsTheHistory` | fiduswriter/document/views.py:1803-1819 | After any mixture of saves over HTTP and live sessions, the covering diffs are exactly what made the versions from the client's on, and are handed over exactly when the log reaches back that far. |
| `DirectSaves.SaveIs` | fiduswriter/document/views.py:1003-1107 | One save: refused for another version, otherwise the version moves by one, with the entry last in a log of two hundred, or none for an encrypted document. |
| `DirectSaves.StoredDocument.SaveDocument` | fiduswriter/document/views.py:1003-1107 | Version check, log of two hundred, emptied for encrypted documents. |
| `DirectSaves.StoredDocument.CoveringDiffs` | fiduswriter/document/views.py:1803-1819 | The slice, and when there is none. |
| `Invites.AccessIsConserved` | fiduswriter/user/models.py:151-240 | The invite holds nothing, the user can open exactly the old documents and the invited ones, nobody else's rights change. |
| `Invites.RightIs` | fiduswriter/user/models.py:151-240 | The exact row the user holds on any document afterwards. |
| `Invites.NeverWorseIff` | fiduswriter/user/models.py:174-193 | A right held does not get worse if and only if the invite reads, the user writes already, or the invited right ranks no lower; `write` is never lost. |
| `Invites.ReviewInviteDowngrades` | fiduswriter/user/models.py:174-193 | An invite to review replaces tracked writing. |
| `Invites.AccessRights.Apply` | fiduswriter/user/models.py:151-240 | Both loops, in whatever order the rows come, lead to that table, and no row is ever created twice. |
| `Books.FreshPath` | fiduswriter/book/views.py:303-313 | The loop ends within as many turns as there are taken paths, with the least free number. |
| `Books.TakenNames` | fiduswriter/document/views.py:794-803 | Names with different numbers differ, so that only so many can be taken. |
| `Books.ChapterRowsAre` | fiduswriter/book/views.py:220-279 | The exact rows after saving other chapters: the old ones, and a right to read for those who had none on the stored chapters of the saving user's; all chapters are stored, or those up to the first of a collaborator's own on which the owner has no right. |
| `Books.SharedRowsAre` | fiduswriter/book/views.py:558-593 | The exact rows after sharing. |
| `Books.UnsharedRowsAre` | fiduswriter/book/views.py:558-593 | No longer sharing takes no right away. |
| `Books.RunKeepsClosed` | fiduswriter/book/views.py:220-279 | In any run of saves by its owner, everyone a book is shared with has a right on every chapter that is the owner's. |
| `Books.CollaboratorKeepsClosedIff` | fiduswriter/book/views.py:238-277 | A collaborator's save keeps this if and only if nothing changed, or nobody lacks a right on a chapter of the owner's among those stored: all, or those up to the first of the collaborator's own on which the owner has no right, where the code raises. |
| `Books.CollaboratorIsCutShort` | fiduswriter/book/views.py:238-277 | A save that stops at its first chapter, and so stays closed although the whole list would not be. |
| `Books.Bookshelf.SaveChapters` | fiduswriter/book/views.py:220-279 | The nested loops that create missing rights, and what they have stored when one raises: `AccessRight` (fiduswriter/document/models.py:317-330) has no field `user_id`. |
| `Books.Bookshelf.ShareWith` | fiduswriter/book/views.py:558-593 | The loop over the chapters when a book is shared. |

## Left out

- Transport, channel groups, the relay, presence, HTTP and Django plumbing: input and output.
- Chat, selections, participant updates on request and path changes: relays without state.
- The internals of editing steps and of schema parsing: external; steps are applied by a parameter.
- `SealedRun.EverySealedRunConverges`: clients that encrypt anything but what they have, clients that come back with
  their document instead of loading it, saves over HTTP, and who holds the key of which salt.
- Filling an empty document from its template on opening, and the check of the document's format version.
- A document deleted while it is open: the save then tries to insert the row again.
- Ownership checks of comments in an encrypted document look into an empty map, where the code would raise on a string.
- Deleting the image itself when its last use is gone.
- Text the database refuses, a lone surrogate or, in some databases, NUL, in a title, an image title or elsewhere: the
  write raises once the diff is accepted. Surrogates are no characters of the model.
- `Convergence.EveryRunConverges`: a stored log whose entries were written by a save over HTTP
  (fiduswriter/document/views.py:1073-1104): they carry no version, and `Stored` asks for one.
- Diffs of another shape, which can raise once they are accepted: fields that are no lists of objects, a comment or
  reference whose id is a list or a dictionary (fiduswriter/document/consumers.py:602, 622), a title that is no text.
- Image titles of more than 128 characters and image numbers beyond the column's range: whether they raise is up to the
  database.
- `Saving.SaveRefinesWritingEverything`: a comment or bibliography entry under an id that is not text; JSON turns such
  an id into text in the row.
- `DirectSaves.StoredDocument.SaveDocument`: the content columns, the rights checks, the write guard and errors in the
  parameters of encryption; only version and log.
- Suspensions other than the one inside a save, and the native server's concurrency: its separate locks for the version
  check and the push are not modelled.
- The native server's reading of rights, its participant numbering and its broadcast.
- Saving everything for maintenance, and importing documents.
- Locks: a second writer of the key rows during a re-key is not modelled.
- A client that has left comes back with its document, not with a diff still waiting for confirmation, and a row is
  reopened only by joining.
- `SessionObject.Participants.SendUpdates`: the order of sends to different participants is not recorded, only the order
  on each connection.
- `Migrator.IdCounter.Update`: a figure whose caption has no length makes the migration stop with an error; such trees
  are excluded, and so are shared or cyclic dictionaries.
- `SessionObject.DocumentSession.ReceiveText`: reading the rights again before a frame that changes something; that is
  in `Authorization.dfy`.
- `SessionObject.DocumentSession.Subscribe`: refusing access, the format version, filling an empty document.
- `Authorization.RefreshAgreesIff`: the path of the document for this user, which is read along with the rights.
- `Frames.Client.Receive`: frames are handed out as bytes; parsing them as JSON is not modelled, nor is the handshake.
- Copying a book, deleting rights on documents elsewhere, e-mails, avatars, contacts and the audit log.
