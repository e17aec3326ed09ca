# SmartShare synchronisation core in Dafny

SmartShare is a collaborative editor. Each participant runs an editor plugin
(VS Code) that talks to a local Rust client process over stdin/stdout. The
client talks to a central server. Edits travel as operation sequences
(retain / insert / delete) of the `operational_transform` crate. The server
keeps a revision log and rebases late edits over it by operational
transformation.

This project models three pieces of that logic as pure functions over
immutable data and proves their properties:

- **The editor plugin's engine**: `plugins/vscode/smartshare/src/extension.ts` and `message.ts`.
  - The line framer of the client's output.
  - The message test and the dispatch by tag.
  - The `Update` record with its range and write.
  - The echo filter (`toIgnore`) and the acknowledgement counter (`waitingAcks`).
  - The file handshake and the cursor indicators with their colours.
- **The Rust client**: reconstructed from the scenarios in `smartshare/src/client/main.rs`.
  - Its conversion of editor modifications, in character or UTF-8 byte offsets, to one operation sequence, and back.
  - Its bookkeeping of what each side has not yet acknowledged.
  - The operation sequences it relies on: the builder, `apply`, `compose` and `transform`, defined concretely with their laws.
- **The server's revision log** (`smartshare/src/server/server.rs`).
  - Its history of deltas and its client list.
  - Rebasing an incoming delta over the revisions it missed.
  - The acknowledgement and broadcast that follow.

Modules, one concept per file:

| file | module | what |
|---|---|---|
| common.dfy | Common | `Option` |
| units.dfy | Units | UTF-8 widths, byte/char offsets |
| protocol.dfy | Protocol | messages between editor, client and server |
| operation_seq.dfy | OperationSeq | operations, the builder, `apply` |
| ot_compose.dfy | OtCompose | `compose` and its meaning |
| ot_transform.dfy | OtTransform | `transform` and convergence |
| conversion.dfy | Conversion | editor modifications to and from operation sequences |
| client.dfy | Client | the client's state machine |
| client_scenario_eval.dfy, client_scenarios.dfy | ClientScenarioEval, ClientScenarios | the scenarios of main.rs replayed step by step |
| server.dfy | Server | the revision log |
| message.dfy | EditorMessage | message test, dispatch, `Update`, range and write |
| framer.dfy | Framer | the stdout line framer |
| engine.dfy | Engine | the plugin's state and handlers |

How the editor is modelled:

- The editor is its text plus an oracle `refuses(text, modification)` for the edits it declines.
- A write clamps its range like `positionAt`.
- An accepted write reports exactly one change event, with the clamped range. That event is handled before the write completes.
- A decoded line is a `Value`: a protocol message, or some other object with whatever `action` it has.
- `JSON.parse` is a `decode` oracle that can fail.

Known behaviour of the code as written, which the model reproduces:

- `startClient` does not reset `init`. A session joined after an earlier one closed therefore starts with the handshake already over. The file the new client delivers is written and then sent back as an `Update` (`Engine.RejoinEchoesFile`).
- A server update whose revision is the latest one is appended without a length check (`Server.ServerUpdateAccepted`).

The two defects under "## Findings" are modelled both ways. The engine's own stdout handler, `Engine.OnChunk`, runs the corrected framer (`Framer.Frame`) and the corrected six-tag test (`EditorMessage.IsMessage`), so that the rest of the engine can be studied. The handler exactly as written is `Engine.OnChunkAsWritten`: with the test as written no protocol message gets through, so no chunk changes the engine (`Engine.AckChunk` contrasts the two on one acknowledgement).

## Model

| member | source | states |
|---|---|---|
| Units.ByteLen | smartshare/src/client/main.rs:262-292 | a text takes between one and four UTF-8 bytes per character |
| Units.ByteLenAppend | smartshare/src/client/main.rs:262-292 | the byte length of a concatenation is the sum of the byte lengths |
| Units.UnitLenAppend | smartshare/src/client/main.rs:262-292 | the length in either unit is additive over concatenation |
| Units.ByteToCharOfBoundary | smartshare/src/client/main.rs:262-292 | the byte offset of every character boundary converts back to that boundary |
| Units.ByteToCharIsBoundary | smartshare/src/client/main.rs:262-292 | a byte offset that converts lies exactly on the boundary it names |
| Units.CharIndexRoundTrip | smartshare/src/client/main.rs:262-292 | in either unit, offsets and character boundaries convert into each other bijectively |
| Units.CharIndexMonotone | smartshare/src/client/main.rs:262-292 | larger offsets name later characters |
| Protocol.TagDistinguishesKinds | plugins/vscode/smartshare/src/message.ts:46-67 | two messages carry the same `action` tag exactly when they are of the same kind |
| Protocol.ParseFormatName | plugins/vscode/smartshare/src/message.ts:46-49 | `offset_format` is accepted exactly when it reads "bytes" or "char" |
| Protocol.FormatNameRoundTrip | plugins/vscode/smartshare/src/message.ts:46-49 | writing then reading the offset format gives it back, and reading then writing gives back the text read |
| OperationSeq.AddRetain | smartshare/src/client/main.rs:214-220 | the builder's `retain`: a zero count is dropped and a retain after a retain merges into it; its laws are stated by AddNormalized and AddMeaning |
| OperationSeq.AddDelete | smartshare/src/client/main.rs:214-220 | the builder's `delete`: a zero count is dropped and a delete after a delete merges into it; its laws are stated by AddNormalized and AddMeaning |
| OperationSeq.AddInsert | smartshare/src/client/main.rs:214-220 | the builder's `insert`: an empty text is dropped, an insert after an insert merges, and an insert after a delete goes in front of it; its laws are stated by AddNormalized and AddMeaning |
| OperationSeq.LengthsAppend | smartshare/src/client/main.rs:208-214 | base and target lengths are additive over concatenation |
| OperationSeq.AddNormalized | smartshare/src/client/main.rs:214-220 | the builder (`retain`, `delete`, `insert`) keeps a sequence in canonical shape |
| OperationSeq.AddMeaning | smartshare/src/client/main.rs:214-220 | the builder's merging and reordering never change what a sequence does to a text or its lengths |
| OperationSeq.Apply | smartshare/src/client/main.rs:208-228 | `apply` succeeds exactly on texts of the base length and yields a text of the target length |
| OperationSeq.RunAppend | smartshare/src/client/main.rs:208-228 | a concatenation applies each part to its share of the text |
| OtCompose.Compose | smartshare/src/client/main.rs:699-758 | the crate's `compose`, which folds edits held back into one delta: it fails unless the first target length is the second base length; its meaning is stated by ComposeCorrect and ComposeLengths |
| OtCompose.ComposeLoopLengths | smartshare/src/client/main.rs:739-758 | without empty operations, composing succeeds exactly when the first target length meets the second base length |
| OtCompose.ComposeCorrect | smartshare/src/client/main.rs:739-758 | the composed sequence does what the first then the second does, on every text of the right length |
| OtCompose.ComposeNormalized | smartshare/src/client/main.rs:739-758 | the composed sequence is canonical |
| OtCompose.ComposeLengths | smartshare/src/client/main.rs:739-758 | composing canonical chained sequences succeeds and spans first base to second target |
| OtTransform.Transform | smartshare/src/server/server.rs:58-61 | the crate's `transform`, which the server and the client use to rebase one edit over another: it fails unless both start from texts of one length; its meaning is stated by TransformCorrect and TransformLengths |
| OtTransform.TransformLoopSucceeds | smartshare/src/server/server.rs:58-61 | without empty operations, transforming succeeds exactly when both edits start from texts of the same length |
| OtTransform.TransformCorrect | smartshare/src/client/main.rs:447-505 | the two transformed edits bring both sides to one text (b' after a equals a' after b), with closing lengths |
| OtTransform.TransformNormalized | smartshare/src/server/server.rs:58-61 | both transformed edits are canonical |
| OtTransform.TransformLengths | smartshare/src/server/server.rs:58-61 | transforming canonical edits of one text succeeds and the lengths close the square |
| Conversion.FromModifications | smartshare/src/client/main.rs:195-230 | an editor `Update`'s modifications, in the client's offset unit, folded into one delta over the editor's text; stated by FromModificationsCorrect |
| Conversion.ToModifications | smartshare/src/client/main.rs:323-355 | a delta turned into the editor's modifications, in the client's offset unit; stated by ToModificationsCorrect and ModificationsRoundTrip |
| Conversion.ModOpCorrect | smartshare/src/client/main.rs:197-228 | the sequence for one modification replaces exactly its range by its text |
| Conversion.ReplacementCorrect | smartshare/src/client/main.rs:214-220 | keep / delete / insert / keep built by the builder replaces a slice of the text |
| Conversion.ApplyModsAppend | smartshare/src/client/main.rs:197-228 | applying modifications one after the other splits over concatenation |
| Conversion.FromModificationsCorrect | smartshare/src/client/main.rs:197-228 | an editor update converts exactly when its modifications apply in sequence, into one canonical sequence over the whole text with the same effect |
| Conversion.FlushCorrect | smartshare/src/client/main.rs:324-355 | one run of deletions and insertions becomes a modification that does it |
| Conversion.ToModsLoopCorrect | smartshare/src/client/main.rs:324-355 | walking a delta yields modifications that, applied one after the other, do what the delta does |
| Conversion.ToModificationsCorrect | smartshare/src/client/main.rs:385-416 | a server delta sent to the editor, in either unit, does to the editor's text what it does to the client's |
| Conversion.ModificationsRoundTrip | smartshare/src/client/main.rs:324-355 | converting a delta to modifications and back gives a sequence with the same effect |
| Client.New | smartshare/src/client/main.rs:128-131 | a new client holds the empty text at the given revision and satisfies the invariant |
| Client.Rebase | smartshare/src/client/main.rs:563-585 | a server delta arriving while this client's own delta is unacknowledged is transformed over it and over what is queued behind it, the server's insertions first; stated by RebaseCorrect |
| Client.OnServerUpdate | smartshare/src/client/main.rs:323-355 | a server update is rebased, applied to the client's text at the new revision, and sent to the editor, or queued while the editor has an update unacknowledged; stated by ServerUpdateCorrect |
| Client.OnServerAck | smartshare/src/client/main.rs:699-758 | a server `Ack` advances the revision and sends what was queued as one delta; stated by ServerAckCorrect |
| Client.OnServer | smartshare/src/client/main.rs:96-101 | `on_message_server`: a file resets the client at its version and goes to the editor, a file request goes to the editor, updates and acks go to their steps; stated by OnServerPreserves |
| Client.RebaseIde | smartshare/src/client/main.rs:469-505 | an editor edit made while the editor has an update unacknowledged: the update is transformed over the edit and sent again after an `Ack`; stated by RebaseIdeCorrect |
| Client.OnIdeUpdate | smartshare/src/client/main.rs:195-230 | an editor update is converted, applied to both texts, rebased, acknowledged, and sent at the known revision or queued behind the delta in flight; stated by IdeUpdateCorrect |
| Client.OnIdeAck | smartshare/src/client/main.rs:773-786 | an editor `Ack` applies what the editor was sent and sends what was queued for it; stated by IdeAckCorrect |
| Client.OnIde | smartshare/src/client/main.rs:81-88 | `on_message_ide`: an update and an ack go to their steps, and the editor's own file starts a new document sent to the server at version 0; stated by OnIdePreserves |
| Client.RebaseCorrect | smartshare/src/client/main.rs:563-585 | a server delta is rebased over what the client sent and queued exactly when it was made against the text the server side expects; the result is canonical and the pending edits stay chained |
| Client.EnqueueCorrect | smartshare/src/client/main.rs:669-686 | queueing an edit behind a queue composes them into one sequence doing both |
| Client.EnqueueLengths | smartshare/src/client/main.rs:669-686 | the queue stays canonical and spans from the text before the first held edit to the latest text |
| Client.OutstandingCorrect | smartshare/src/client/main.rs:739-758 | the delta in flight followed by its queue is one sequence doing both |
| Client.UpdateForCorrect | smartshare/src/client/main.rs:324-355 | the `Update` built for the editor, applied there, does what the delta does |
| Client.ServerUpdateCorrect | smartshare/src/client/main.rs:447-505 | a server update is taken exactly when made against the server's text; the revision advances and the editor is sent the rebased change |
| Client.ServerAckCorrect | smartshare/src/client/main.rs:739-758 | a server `Ack` is taken exactly when a delta is in flight; the revision advances and queued edits go out as one delta |
| Client.OnServerPreserves | smartshare/src/client/main.rs:421-511 | every server message the client takes keeps the client's invariant |
| Client.RebaseIdeCorrect | smartshare/src/client/main.rs:469-505 | an editor edit made while the editor has an update unacknowledged is rebased over it |
| Client.IdeUpdateCorrect | smartshare/src/client/main.rs:197-230 | an editor update is taken exactly when its modifications apply; it is acknowledged to the editor at once and sent, or queued, as one delta at the known revision |
| Client.IdeAckCorrect | smartshare/src/client/main.rs:591-792 | an editor `Ack` is taken exactly when an update is in flight to it, and releases what was queued for it |
| Client.OnIdePreserves | smartshare/src/client/main.rs:591-792 | every editor message the client takes keeps the client's invariant |
| ClientScenarios.SimpleConnection | smartshare/src/client/main.rs:128-146 | a server file is passed to the editor as a file |
| ClientScenarios.FirstConnection | smartshare/src/client/main.rs:148-171 | a server file request is passed to the editor, whose file goes to the server at version 0 |
| ClientScenarios.IdeChangeChars | smartshare/src/client/main.rs:173-234 | the character edits (0,1,"Ç"),(6,1,"M") go out as one delta at revision 4 and the editor gets `Ack` |
| ClientScenarios.IdeChangeBytes | smartshare/src/client/main.rs:236-297 | the byte edits (0,2,"Ç"),(8,1,"M") give the same delta as the character form |
| ClientScenarios.ServerChangeChars | smartshare/src/client/main.rs:299-358 | a server delta reaches the editor as character modifications |
| ClientScenarios.ServerChangeBytes | smartshare/src/client/main.rs:360-419 | a server delta reaches the editor as byte modifications |
| ClientScenarios.IdeConflict | smartshare/src/client/main.rs:421-511 | an editor insert at 5, made before the editor acknowledged the server's insert at 11, goes to the server at revision 5, and the editor gets `Ack` and the server's insert again at 15 |
| ClientScenarios.ServerConflict | smartshare/src/client/main.rs:513-589 | a server insert at 11 (revision 43) arriving while the local insert at 5 is unacknowledged reaches the editor at 15 |
| ClientScenarios.MultipleConflicts | smartshare/src/client/main.rs:591-792 | edits held while a delta is in flight go out together on `Ack` with base length 19 at revision 45 |
| Server.New | smartshare/src/server/server.rs:16-26 | a new server has one empty delta, a well formed history and no clients |
| Server.OnConnect | smartshare/src/server/server.rs:40-43 | a connecting client is appended after the others |
| Server.Without | smartshare/src/server/server.rs:45-48 | removal keeps exactly the other ids |
| Server.OnDisconnect | smartshare/src/server/server.rs:45-48 | every entry with the id leaves and no other id is lost or added |
| Server.WithoutAppend | smartshare/src/server/server.rs:45-48 | removal works part by part, so the others keep their order |
| Server.WithoutCounts | smartshare/src/server/server.rs:45-48 | every other id is kept as many times as it was listed |
| Server.ConnectThenDisconnect | smartshare/src/server/server.rs:40-48 | connecting then disconnecting an id leaves the list as removing it would |
| Server.RebaseFrom | smartshare/src/server/server.rs:58-61 | with nothing left to transform over, the delta is unchanged |
| Server.Notify | smartshare/src/server/server.rs:63-80 | one notice per connected client in list order: `Ack` exactly to the sender, the delta at the given revision to the others |
| Server.OnMessage | smartshare/src/server/server.rs:50-85 | a message other than `ServerUpdate`, or a revision past the history, is not handled |
| Server.RebaseLengths | smartshare/src/server/server.rs:58-61 | rebasing a canonical delta made against its revision's text succeeds and lands on the latest text; a delta of another length fails at the first transform |
| Server.ServerUpdateShape | smartshare/src/server/server.rs:54-81 | an accepted update appends exactly the rebased delta, keeps the clients, acks the sender and sends the others the delta at the new latest revision |
| Server.ChainedExtend | smartshare/src/server/server.rs:62 | appending a canonical delta made against the latest text keeps the history well formed |
| Server.ServerUpdateAccepted | smartshare/src/server/server.rs:54-62 | over a well formed history an update is accepted exactly when made against its revision's text (always when at the latest revision), and then the history stays well formed |
| Server.RebaseConverges | smartshare/src/server/server.rs:58-62 | the server's rebased delta after the missed history gives the text the client reaches by applying the transformed history after its own edit |
| EditorMessage.Action | plugins/vscode/smartshare/src/message.ts:4-67 | a decoded value carries a protocol tag exactly when it is a protocol message |
| EditorMessage.IsMessage | plugins/vscode/smartshare/src/message.ts:69-71 | the test as intended: the action is one of the six listed tags; stated by IsMessageExactly |
| EditorMessage.IsMessageAsWritten | plugins/vscode/smartshare/src/message.ts:69-71 | the test as written: the action names a property of the array, own or inherited; stated by IsMessageAsWrittenExactly |
| EditorMessage.IsMessageExactly | plugins/vscode/smartshare/src/message.ts:69-71 | the intended test accepts exactly the messages of the six listed kinds |
| EditorMessage.IsMessageAsWrittenExactly | plugins/vscode/smartshare/src/message.ts:69-71 | the test as written accepts exactly the non-protocol objects whose action names an index, `length` or an inherited array or object property |
| EditorMessage.IsMessageAsWrittenRefusesAll | plugins/vscode/smartshare/src/message.ts:69-71 | the test as written refuses every protocol message and accepts objects whose action is "0", "push" or "constructor" |
| EditorMessage.MatchMessage | plugins/vscode/smartshare/src/message.ts:73-96 | the handler chosen is the one whose case names the message's tag; a cursor message matches none |
| EditorMessage.MatchMessageExactlyOne | plugins/vscode/smartshare/src/message.ts:82-95 | for every accepted message, exactly one handler matches, the one for its tag |
| EditorMessage.NewUpdate | plugins/vscode/smartshare/src/message.ts:12-17 | the constructor tags the record "update" |
| EditorMessage.NewUpdateRoundTrip | plugins/vscode/smartshare/src/message.ts:12-17 | the constructor stores offset, delete and text verbatim, and every update record is one it built |
| EditorMessage.Clamp | plugins/vscode/smartshare/src/message.ts:24-27 | a position past the end of the text is the end |
| EditorMessage.Range | plugins/vscode/smartshare/src/message.ts:19-28 | the range lies in the text, is exactly offset to offset + delete when that fits, and never spans more than delete |
| EditorMessage.Write | plugins/vscode/smartshare/src/message.ts:30-43 | a refused edit fails; otherwise the text before the range is kept, the range is replaced by the text and the rest follows |
| EditorMessage.Reported | plugins/vscode/smartshare/src/message.ts:24-27 | the change event of a write equals the modification exactly when its range fits the text |
| Framer.JoinSplit | plugins/vscode/smartshare/src/extension.ts:61 | splitting a chunk at newlines loses nothing |
| Framer.SplitLine | plugins/vscode/smartshare/src/extension.ts:61 | a chunk without a newline is one piece |
| Framer.SplitPieces | plugins/vscode/smartshare/src/extension.ts:61 | no piece holds a newline |
| Framer.SplitAppend | plugins/vscode/smartshare/src/extension.ts:61 | the pieces of a concatenation join the last piece of the first text to the first piece of the second |
| Framer.CompleteLinesAppend | plugins/vscode/smartshare/src/extension.ts:58-77 | the complete lines of a stream do not depend on where it is cut |
| Framer.Split | plugins/vscode/smartshare/src/extension.ts:61 | `split("\n")` gives at least one piece; its laws are stated by JoinSplit, SplitLine, SplitPieces and SplitAppend |
| Framer.ProcessWith | plugins/vscode/smartshare/src/extension.ts:62-74 | only values the message test accepts are handed over, never more than there are lines, and a failing line comes from the chunk |
| Framer.Process | plugins/vscode/smartshare/src/extension.ts:62-74 | under the intended test only messages are handed over |
| Framer.ProcessClean | plugins/vscode/smartshare/src/extension.ts:62-74 | when every line is a message, every non-empty line is handed over in order and empty lines are never parsed |
| Framer.ProcessStops | plugins/vscode/smartshare/src/extension.ts:64-70 | a line that is not a message stops the chunk after the messages before it |
| Framer.DecodedAppend | plugins/vscode/smartshare/src/extension.ts:62-74 | the messages of two runs of lines are those of each in order |
| Framer.FrameAsWritten | plugins/vscode/smartshare/src/extension.ts:58-77 | the framing as written, under the intended test, hands over only messages |
| Framer.FrameAsShipped | plugins/vscode/smartshare/src/extension.ts:58-77 | the handler exactly as written hands over only values that are not protocol messages |
| Framer.FrameAsWrittenTwice | plugins/vscode/smartshare/src/extension.ts:58-77 | as written, a line cut before its newline is handed over twice; the intended handler hands it over once |
| Framer.Frame | plugins/vscode/smartshare/src/extension.ts:58-77 | the intended handler hands over only messages |
| Framer.FrameLines | plugins/vscode/smartshare/src/extension.ts:58-77 | the lines looked at are the complete lines of the waiting text and the chunk, and what follows their last newline waits |
| Framer.FrameNoNewline | plugins/vscode/smartshare/src/extension.ts:58-77 | a chunk without a newline hands nothing over and is prepended to the next one |
| Framer.FrameKeepsOneLine | plugins/vscode/smartshare/src/extension.ts:75 | what waits for the next chunk never holds a newline |
| Framer.FrameEndsWithNewline | plugins/vscode/smartshare/src/extension.ts:58-77 | a chunk ending in a newline leaves nothing waiting |
| Framer.FrameClean | plugins/vscode/smartshare/src/extension.ts:58-77 | with every complete line a message, the handler hands over all of them in order |
| Framer.FrameSplitIndependent | plugins/vscode/smartshare/src/extension.ts:58-77 | two chunks hand over what their concatenation would and leave the same text waiting |
| Framer.FrameStopsAtNonMessage | plugins/vscode/smartshare/src/extension.ts:64-70 | a line that is not a message hands over the messages before it and nothing after |
| Engine.JsRem | plugins/vscode/smartshare/src/extension.ts:36 | JavaScript's remainder: smaller than the divisor, with the sign of the dividend, the mathematical one for non-negative dividends |
| Engine.ColorOf | plugins/vscode/smartshare/src/extension.ts:22-36 | an indicator colour, when there is one, is one of the six listed |
| Engine.ColorOfCycles | plugins/vscode/smartshare/src/extension.ts:22-36 | ids six apart share a colour; a negative id has one only when it is a multiple of six, and then it is the first |
| Engine.IndicatorOf | plugins/vscode/smartshare/src/extension.ts:30-40 | an indicator lies inside the text, from the earlier to the later end, in its participant's colour |
| Engine.UpdateCursors | plugins/vscode/smartshare/src/extension.ts:29-46 | the participant's indicators become one per cursor, in order; only its previous ones are released; other participants are untouched |
| Engine.UpdateCursorsTwice | plugins/vscode/smartshare/src/extension.ts:42-45 | a second cursor message releases exactly what the first installed |
| Engine.IndexOf | plugins/vscode/smartshare/src/extension.ts:167 | -1 exactly when absent; otherwise the first position holding the entry |
| Engine.SpliceOne | plugins/vscode/smartshare/src/extension.ts:52-53 | removing at an index, negative from the end, drops exactly one entry when the list is not empty |
| Engine.RemoveFirstCounts | plugins/vscode/smartshare/src/extension.ts:167-169 | consuming the first equal entry takes one copy out and keeps the rest |
| Engine.Suppress | plugins/vscode/smartshare/src/extension.ts:163-173 | the echo filter never forwards more changes than it is given; stated by SuppressCounts and SuppressOrder |
| Engine.SuppressCounts | plugins/vscode/smartshare/src/extension.ts:163-173 | each change is forwarded as often as it occurs beyond its ignore entries; each dropped change consumes exactly one entry |
| Engine.SuppressOrder | plugins/vscode/smartshare/src/extension.ts:166-173 | forwarded changes keep their original order |
| Engine.Start | plugins/vscode/smartshare/src/extension.ts:7-17 | the engine starts with nothing awaited, nothing ignored and the handshake pending |
| Engine.ChangeDocument | plugins/vscode/smartshare/src/extension.ts:138-184 | the counter rises by exactly the number of updates sent; the text and flags are untouched |
| Engine.ChangeDocumentCorrect | plugins/vscode/smartshare/src/extension.ts:138-184 | nothing is sent during the handshake, without a client or from the output panel; otherwise the ignore list ends empty, and either everything was an echo or exactly one update goes out and the counter rises by one |
| Engine.ChangeDocumentForwards | plugins/vscode/smartshare/src/extension.ts:163-183 | what goes out is an update of the changes that were not echoes, in order |
| Engine.ApplyChange | plugins/vscode/smartshare/src/extension.ts:48-56 | a change succeeds exactly when the editor accepts it; the counter only rises by updates sent |
| Engine.ApplyChangeRefused | plugins/vscode/smartshare/src/extension.ts:48-56 | after a refused write the ignore list and every other field are as before |
| Engine.ApplyChangeEcho | plugins/vscode/smartshare/src/extension.ts:48-56 | an accepted in-range write is recognised as its own echo: nothing is sent and the text is the replaced one |
| Engine.ApplyAll | plugins/vscode/smartshare/src/extension.ts:84-91 | the counter only rises by updates sent |
| Engine.ApplyAllAborts | plugins/vscode/smartshare/src/extension.ts:84-91 | changes are applied in order and the first refused one ends the loop with the earlier ones kept |
| Engine.ApplyAllMatchesClient | plugins/vscode/smartshare/src/extension.ts:84-91 | with an accepting editor, changes that fit give the text the client's own character conversion computes, and nothing is sent |
| Engine.NoAckFromApplyAll | plugins/vscode/smartshare/src/extension.ts:83-91 | applying changes sends only updates |
| Engine.HandleUpdate | plugins/vscode/smartshare/src/extension.ts:81-102 | the counter only rises by updates sent |
| Engine.HandleUpdateCorrect | plugins/vscode/smartshare/src/extension.ts:81-102 | an update is dropped while an own update is awaited; it is acknowledged exactly when every write succeeded and a client runs |
| Engine.HandleFile | plugins/vscode/smartshare/src/extension.ts:118-124 | the handshake is over after a file, whether or not the write went through |
| Engine.HandleMessage | plugins/vscode/smartshare/src/extension.ts:79-136 | an `Ack` sends nothing and lowers a positive counter by one; any other message raises it by exactly the updates sent |
| Engine.HandleMessageInv | plugins/vscode/smartshare/src/extension.ts:125-131 | the counter never goes negative |
| Engine.AckCorrect | plugins/vscode/smartshare/src/extension.ts:125-131 | an `Ack` decrements a positive counter, leaves 0 at 0 and changes nothing else |
| Engine.HandshakeCorrect | plugins/vscode/smartshare/src/extension.ts:106-124 | a file request with a client sends the whole text and ends the handshake; a file replaces the whole text and is not echoed during the handshake |
| Engine.CursorsCorrect | plugins/vscode/smartshare/src/extension.ts:132-134 | a cursor message installs one indicator per cursor in the sender's colour and leaves other participants alone |
| Engine.HandleAll | plugins/vscode/smartshare/src/extension.ts:62-74 | handling a chunk's messages keeps the counter non-negative |
| Engine.HandleAllCounts | plugins/vscode/smartshare/src/extension.ts:79-136 | over messages without `Ack`, the counter rises by exactly the number of updates sent |
| Engine.OnChunk | plugins/vscode/smartshare/src/extension.ts:58-77 | handling a chunk with the corrected framer and test keeps the counter non-negative |
| Engine.OnChunkAsWritten | plugins/vscode/smartshare/src/extension.ts:58-77 | the handler exactly as written, with message.ts:69-71, never changes the engine or writes anything, and keeps what the framing as written keeps |
| Engine.HandleAllAppend | plugins/vscode/smartshare/src/extension.ts:62-74 | handling two runs of values in turn is handling their concatenation |
| Engine.HandleAllJunk | plugins/vscode/smartshare/src/extension.ts:62-74 | values that are not protocol messages change nothing and write nothing |
| Engine.OnChunkSplitIndependent | plugins/vscode/smartshare/src/extension.ts:58-77 | when every complete line is a message, two chunks leave the engine, the messages written and the waiting text as their concatenation does |
| Engine.AckChunk | plugins/vscode/smartshare/src/extension.ts:58-77 | one complete acknowledgement line lowers a counter of 1 to 0 in the corrected handler and leaves it at 1 as written |
| Engine.ChangeSelections | plugins/vscode/smartshare/src/extension.ts:186-203 | with a client, one cursor message under id 0 with one cursor per selection in order; without one, nothing |
| Engine.SelectionsRoundTrip | plugins/vscode/smartshare/src/extension.ts:186-203 | the selections sent become, at a receiving editor, one indicator each under id 0 in the first colour |
| Engine.StartClient | plugins/vscode/smartshare/src/extension.ts:206-218 | starting a client leaves the handshake flag, text and counter as they were |
| Engine.OnClose | plugins/vscode/smartshare/src/extension.ts:236-252 | closing releases every participant's indicators and leaves no client |
| Engine.ClosedSendsNothing | plugins/vscode/smartshare/src/extension.ts:236-252 | once the client has closed, edits, selections and file requests send nothing |
| Engine.RejoinEchoesFile | plugins/vscode/smartshare/src/extension.ts:206-218 | a second session starts with the handshake over, so its file is sent back as an update and awaited |

## Left out

- smartshare/src/client/client.rs is not part of this model. The client's steps are reconstructed from the scenarios in main.rs. A message none of the scenarios sends (for example `Declare`, or an `Error`) is a step the model does not take (`None`).
- The `operational_transform` crate is not part of this model. `compose`, `transform`, `apply` and the builder are defined as that crate documents them: canonical shape, with an insertion of the first argument winning a tie. Their laws are proved rather than assumed.
- Server.OnMessage: a `todo!` (a revision past the history, a message other than `ServerUpdate`) and a failed `unwrap` of `transform` are the result `None`, not a panic.
- Server.Notify: a failed send to a client only logs in the source and is not modelled.
- I/O and processes: the `select!` loop, TCP, stdin/stdout, channels, spawning the client and server, commands, the status bar, notifications and logging. These are plumbing.
- JSON encoding is not modelled. A line is given already decoded (`decode` oracle). Ignore entries are compared as modifications, which is what comparing their `JSON.stringify` texts amounts to.
- Promises are modelled as one sequential step. No other event interleaves with the update handler's loop or the file write, and the change event of a write is handled before the write completes.
- The editor is abstract. Offsets are code points rather than UTF-16 units. An accepted write always reports exactly one change event, even when it changes nothing. Decorations are values in a map.
- Only the active editor's document is modelled. The branch where `write` finds no active editor is the refusal branch. Events from other documents are modelled only for the output panel.
- `matchMessage` in message.ts takes its handlers in another order than extension.ts passes them. The two files come from different revisions: extension.ts imports `Cursors`, `Cursor` and `TextModification`, which this message.ts does not define. The model dispatches by tag.
- `Declare` has no handler in extension.ts, so it does nothing. Under the six-tag test, a `cursor` line from the client is refused by the framer. The cursor handler is modelled but only reachable by calling `HandleMessage` directly.
- The `ignoreNextEvent` flag is only ever set to false and has no effect, so it is not modelled.
- Engine.OnChunk: follows `Framer.Frame` and `EditorMessage.IsMessage`, the corrected readings of both findings. As written every protocol line is refused; that handler is `Engine.OnChunkAsWritten`.
- EditorMessage.IsMessageAsWritten: an `action` that is not a string is not representable. A number `0`..`5` would also pass `in` after conversion to a key. The inherited names are those of ECMAScript 2023; another JavaScript engine may add or lack some.
- Engine.JsRem: states the sign and the bound, and the value only for non-negative dividends, not the congruence for negative ones.

## Findings

| source | as written | input that shows it | evidently intended | confidence | as-written member | corrected member |
|---|---|---|---|---|---|---|
| plugins/vscode/smartshare/src/message.ts:69-71 | `action in [...]` tests the array's property names, its own ("0".."5", "length") and inherited ones ("push", "constructor", ...), not its elements | `{"action":"ack"}` is refused; `{"action":"push"}` is accepted; the engine then reacts to no chunk at all | accept exactly the six listed tags | high, not executed | EditorMessage.IsMessageAsWritten (EditorMessage.IsMessageAsWrittenRefusesAll, Engine.OnChunkAsWritten) | EditorMessage.IsMessage (EditorMessage.IsMessageExactly) |
| plugins/vscode/smartshare/src/extension.ts:58-77 | the last piece of a chunk is parsed like a complete line and also kept for the next chunk | `{"action":"ack"}` then `"\n"` in two chunks dispatches the `Ack` twice | only newline-terminated lines are parsed; the last piece waits | high, not executed | Framer.FrameAsWritten (Framer.FrameAsWrittenTwice) | Framer.Frame (Framer.FrameSplitIndependent) |
