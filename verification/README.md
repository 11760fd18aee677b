# voidChat client core in Dafny

voidChat is a browser peer-to-peer chat client. All of its logic lives in one
script, `script.js`. This project models that script's core as pure Dafny
functions over an explicit session state, and proves properties of those functions.
The core covers:

- the 8-character identity: generated, saved, loaded and regenerated;
- the `localStorage` records:
  - `lite_id`;
  - `last_peer`;
  - one `bubble_<id>` message log per peer;
  - one `nickname_<id>` display name per peer;
- the sidebar of peer buttons, rebuilt from the stored keys at start-up;
- the connection-attempt protocol:
  - the supersession of the previous connection;
  - the "open", "error" and "close" handlers;
  - the 4-second liveness timer;
- the inbound-connection handler and `setupConnection`'s data handler;
- the Enter-key send handler and the nickname context menu.

Module layout:

- `Wrappers`: `Option`, which stands in for JavaScript's `null`.
- `Text`: the string operations the script relies on:
  - `String.prototype.trim` with the ECMAScript white-space set;
  - `toUpperCase`, limited to ASCII;
  - `startsWith`;
  - `replace` with a string pattern, which replaces the first occurrence.
- `Storage`: `localStorage` as a map from keys to values. A `bubble_` key always holds a parsed message log. Any other key holds a plain string.
- `Nicknames`: `getNickname`, `setNickname`, `displayName`.
- `Conversation`: `saveMessage` and `loadBubble`'s rendering of a log.
- `Identity`: `generateId`, `saveId`, `getId`.
- `Roster`: `addBubble`'s duplicate guard and `rebuildBubbles`' key scan.
- `Client`: the session and one function per browser or PeerJS callback, plus:
  - `Step`, which runs one event;
  - `Run`, which runs a sequence of events.
- `ClientFacts`: the properties of those handlers.

Modelling choices:

- The global `connection` is a connection handle or `None`.
  - `close()` is logged in `closeCalls`. It does not clear the variable, just as the script keeps the closed object there.
  - So after a close the send gate still sees a connection.
- Each connection's closure state lives in a `Link`. For an attempt this is its target, its own `connected` flag and whether its timer has fired yet.
- `setupConnection` attaches its "data" handler to whatever the global `connection` holds at that moment. The model therefore counts attached handlers per connection in a multiset. A "data" event runs every handler attached to that connection.
- `Math.random()` is an input: eight draws in `[0, 36)`.
- `confirm` and `prompt` answers are event fields, and so is the text in the input boxes.
- The order in which the browser enumerates `localStorage` keys is a parameter of start-up.

The model follows the script as written; in particular:

- An error followed by the timer reports the peer offline twice.
- The "error" handler closes nothing.
- An inbound connection replaces the global one without closing it.
- If a superseded attempt never opened, its timer still fires and closes whatever connection the global slot holds by then, which is the newer one. A superseded attempt that did open has a timer that closes nothing.
- Received messages are filed with the sender tag `"anon"`.

## Model

| member | source | states |
|---|---|---|
| Text.Trim | script.js:173 | the result is a slice of the input with only white space cut from each end, and it neither starts nor ends with white space |
| Text.TrimEmptyIff | script.js:173-174 | trimming yields "" exactly when every character of the input is white space |
| Text.TrimIdempotent | script.js:146 | trimming a trimmed string changes nothing |
| Text.ToUpper | script.js:146 | the length is kept; each ASCII lower-case letter becomes its upper-case counterpart, every other character is kept, and no lower-case ASCII letter remains |
| Text.IndexOf | script.js:257 | the result is -1 when the pattern does not occur at or after the start position, and otherwise is the leftmost such occurrence |
| Text.ReplaceFirst | script.js:257 | with no occurrence the string is unchanged; otherwise only the leftmost occurrence of the pattern is replaced |
| Storage.SetItem | script.js:60 | afterwards the key reads back the value; the key set gains only that key, and every other key keeps its value |
| Storage.GetKey | script.js:198-200 | a peer's conversation key carries the "bubble_" prefix followed by exactly the peer id |
| Storage.PeerOfKey | script.js:255-257 | removing the prefix from a "bubble_" key gives back the id after the prefix, and that id's key is the key itself |
| Storage.KeyOfPeer | script.js:198-200 | a key is the conversation key of id `p` exactly when it is a "bubble_" key whose stripped id is `p` |
| Nicknames.NicknameKey | script.js:88-94 | a nickname key is never a conversation key, the identity key or the last-peer key, and it ends with the peer id |
| Nicknames.SetNickname | script.js:92-94 | the peer's nickname reads back as the stored name, and no other key changes |
| Nicknames.NicknameKeyInjective | script.js:88-94 | distinct peers have distinct nickname keys |
| Nicknames.SetNicknameKeepsOthers | script.js:92-98 | setting one peer's nickname keeps every other peer's display name |
| Nicknames.RenamedPeerName | script.js:237-240 | after a rename the peer is shown under the trimmed answer, or under its raw id when the answer is blank |
| Nicknames.RenameDisplayName | script.js:237-240 | the same, together with: every other peer keeps its display name |
| Conversation.SaveMessage | script.js:202-207 | the peer's log gains exactly the new message at its end; no other key, stored string or display name changes |
| Conversation.SaveMessageIsolated | script.js:202-207 | saving under one peer leaves every other peer's log unchanged |
| Conversation.SaveAllThenLoad | script.js:202-207 | saving a sequence of messages one by one and loading the log gives the old log followed by that sequence |
| Conversation.SaveAllIsolated | script.js:202-207 | saving a sequence under one peer leaves other peers' logs and every plain stored string unchanged |
| Conversation.TwoMessageScenario | script.js:202-207 | saving "hi" from "you" and "hello" from "anon" under a fresh peer loads back as those two messages in order |
| Conversation.RenderLines | script.js:214-217 | one line per message, in order, each the speaker ("You" for "you", else the peer's display name), ": " and the text |
| Conversation.RenderAfterSave | script.js:209-217 | re-rendering after a save shows the previous lines plus one line for the new message |
| Identity.Spell | script.js:21-23 | one alphabet character per random draw, in draw order |
| Identity.GenerateId | script.js:18-25 | the id is 8 characters from A-Z and 0-9, its i-th character being the alphabet entry picked by the i-th draw |
| Identity.DrawsFor | script.js:22 | the draws found spell the given identity character by character |
| Identity.EveryIdentityIsGenerated | script.js:18-25 | every 8-character A-Z/0-9 string is the result of some sequence of draws |
| Identity.SaveId | script.js:27-29 | "lite_id" reads back the id, and no other key changes |
| Identity.GetId | script.js:31-38 | a non-empty stored id is returned and storage is untouched; otherwise a freshly generated id is returned and saved; either way "lite_id" then holds the non-empty returned id |
| Identity.GetIdIsStable | script.js:31-38 | a second `getId` after the first returns the same id and changes no storage, whatever the random draws |
| Roster.AddBubble | script.js:224-225 | afterwards the id has a button; the buttons are the old ones plus this id; an existing button means nothing changes; the old order is kept and no id gets two buttons |
| Roster.AddBubbleIdempotent | script.js:224-225 | adding the same id twice is the same as adding it once |
| Roster.ScanKeys | script.js:255-260 | after the scan an id has a button exactly when it had one before or its "bubble_" key is among the scanned keys; no duplicates arise |
| Roster.RebuiltRoster | script.js:252-260 | scanning every stored key gives one button for exactly the ids that have a stored conversation |
| Client.Deliver | script.js:160-163 | n runs of the data handler append n "anon" copies of the payload to the current peer's log and n display lines; nothing else changes |
| ClientFacts.BootRoster | script.js:252-260 | after start-up the sidebar holds exactly the ids with a stored conversation, each once |
| ClientFacts.BootRestoresLastPeer | script.js:262-266 | a non-empty "last_peer" becomes the current peer and its conversation is shown; otherwise there is no current peer and the pane is empty |
| ClientFacts.BootIdentity | script.js:44-45 | start-up uses the id `getId` yields, "lite_id" holds it, and there is no connection yet |
| ClientFacts.BootEstablishesInv | script.js:1-4 | the start-up session satisfies the connection invariant |
| ClientFacts.AttemptPreservesInv | script.js:104-116 | an attempt keeps the connection invariant |
| ClientFacts.OfferPreservesInv | script.js:57-62 | an inbound connection keeps the connection invariant |
| ClientFacts.OpenPreservesInv | script.js:120-125 | "open" keeps the connection invariant |
| ClientFacts.TimeoutPreservesInv | script.js:137-142 | the timer keeps the connection invariant |
| ClientFacts.StepPreservesInv | script.js:104-181 | every event keeps the connection invariant |
| ClientFacts.RunPreservesInv | script.js:104-181 | every sequence of events keeps the connection invariant |
| ClientFacts.HandlersHaveCurrentPeer | script.js:157-163 | in a session meeting the invariant, a data handler never runs without a current peer |
| ClientFacts.AttemptNoOpIff | script.js:105 | an attempt changes the session exactly when the target is neither empty nor the client's own id |
| ClientFacts.AttemptSupersedes | script.js:104-116 | a real attempt closes the previous global connection (if any) and points the slot and the current peer at a fresh, unopened connection. Storage is untouched and the pane shows the target's conversation plus "Attempting connection..." |
| ClientFacts.NormalizeIdShape | script.js:146-147 | the normalised id is "" exactly for a blank field; otherwise it has no surrounding white space and no lower-case ASCII letter |
| ClientFacts.ConnectClickNormalizes | script.js:145-151 | a blank field changes nothing; otherwise the normalised id gets a button and then an attempt |
| ClientFacts.ConnectToSelfOnlyAddsBubble | script.js:145-151 | connecting to one's own id only adds a sidebar button |
| ClientFacts.RenameStore | script.js:237-239 | a confirmed rename from the sidebar writes only the trimmed answer as that peer's nickname |
| ClientFacts.SetNicknameKeepsLastPeer | script.js:92-94 | setting a nickname never changes "last_peer" |
| ClientFacts.RenameKeepsLastPeer | script.js:235-243 | renaming never changes "last_peer" |
| ClientFacts.RegenerateKeepsLastPeer | script.js:69-82 | regenerating the id never changes "last_peer" |
| ClientFacts.ConnectClickKeepsLastPeer | script.js:145-151 | the connect button never changes "last_peer" |
| ClientFacts.KeyPressKeepsLastPeer | script.js:170-181 | sending never changes "last_peer" |
| ClientFacts.ReceiveKeepsLastPeer | script.js:160-163 | receiving never changes "last_peer" |
| ClientFacts.LastPeerWrittenOnlyOnOpenOrOffer | script.js:57-125 | "last_peer" changes only on the "open" of an outbound connection or on an inbound connection |
| ClientFacts.OpenRecordsPeer | script.js:120-125 | "open" marks the attempt connected, records its target as "last_peer", reports it, and attaches a data handler to the connection the global slot holds at that moment |
| ClientFacts.TimeoutBeforeOpen | script.js:137-142 | the timer of an unopened attempt reports the peer offline once and closes the connection the global slot holds, without clearing the slot |
| ClientFacts.StaleTimerClosesNewerConnection | script.js:137-142 | when attempt `p` is superseded by attempt `q`, `p`'s timer closes `q`'s connection |
| ClientFacts.OpenedStaleTimerClosesNothing | script.js:137-142 | when attempt `p` opens and is then superseded by attempt `q`, `p`'s timer reports nothing and closes nothing |
| ClientFacts.ErrorBeforeOpen | script.js:127-131 | an error before "open" adds one offline line and changes nothing else |
| ClientFacts.ErrorThenTimeoutLogsTwice | script.js:127-142 | an error followed by the timer reports the peer offline twice |
| ClientFacts.SilentAfterOpen | script.js:118-142 | in any session where the attempt has opened, its error handler does nothing and its timer neither reports nor closes |
| ClientFacts.AttemptKeepsConnected | script.js:116 | a new attempt leaves an opened earlier attempt opened |
| ClientFacts.OfferKeepsConnected | script.js:57-62 | an inbound connection leaves an opened attempt opened |
| ClientFacts.OpenKeepsConnected | script.js:120-121 | an "open" event leaves an opened attempt opened |
| ClientFacts.TimeoutKeepsConnected | script.js:137-138 | a timer leaves an opened attempt opened |
| ClientFacts.ReceiveKeepsConnected | script.js:160-163 | received data leaves an opened attempt opened |
| ClientFacts.StepKeepsConnected | script.js:118-142 | once an attempt has opened, every later event keeps it opened |
| ClientFacts.RunKeepsConnected | script.js:118-142 | once an attempt has opened, it stays opened over any run of events |
| ClientFacts.TimerFiresOnce | script.js:137-142 | a second firing of the same timer changes nothing |
| ClientFacts.OfferDoesNotClose | script.js:57-62 | an inbound connection takes the global slot without closing the previous one, becomes the current peer's, is recorded as "last_peer", gets a button and has exactly one data handler |
| ClientFacts.ReceivedFilesUnderCurrentPeer | script.js:160-163 | data on a connection with one handler is shown once and filed once as "anon" under the current peer at delivery time; other logs are untouched |
| ClientFacts.ReceivedWithoutHandler | script.js:160 | data on a connection without a handler changes nothing |
| ClientFacts.AttemptOpensLink | script.js:116-118 | a real attempt creates one new outbound link and attaches no handler |
| ClientFacts.OfferTakesSlot | script.js:57-62 | an inbound connection takes the global slot and gets one handler; earlier links are kept |
| ClientFacts.OpenAttachesToSlot | script.js:124 | "open" attaches its handler to the connection in the global slot |
| ClientFacts.DoubleHandlerAttached | script.js:57-125 | when an inbound connection arrives while an attempt is pending and that attempt then opens, the inbound connection ends up with two data handlers |
| ClientFacts.TwoHandlersFileTwice | script.js:160-163 | with two handlers each payload is filed twice |
| ClientFacts.SendGateIff | script.js:170-174 | a key press changes the session exactly when it is Enter, the trimmed input is non-empty, the global slot holds a connection and the current peer is a non-empty string |
| ClientFacts.SendAppendsOne | script.js:176-180 | a send transmits the trimmed text once on the global connection, shows it, appends one "you" message to the current peer's log and clears the input |
| ClientFacts.SendTouchesOnlyCurrentPeer | script.js:178 | a key press leaves every other peer's log untouched |
| ClientFacts.RenameCancelled | script.js:237-238 | a cancelled prompt, or a peer without a button, changes nothing |
| ClientFacts.RenameShowsNewName | script.js:237-241 | a rename shows the peer under the trimmed answer (its raw id if blank) and re-renders the pane when it is the current peer |
| ClientFacts.RenameKeepsOtherNames | script.js:237-240 | a rename leaves other peers' display names alone |
| ClientFacts.SetNicknameKeepsId | script.js:92-94 | setting a nickname never changes "lite_id" |
| ClientFacts.RenameKeepsIdentity | script.js:235-243 | renaming changes neither `myId` nor "lite_id" |
| ClientFacts.KeyPressKeepsIdentity | script.js:170-181 | sending changes neither `myId` nor "lite_id" |
| ClientFacts.ConnectClickKeepsIdentity | script.js:145-151 | the connect button changes neither `myId` nor "lite_id" |
| ClientFacts.OfferKeepsIdentity | script.js:57-62 | an inbound connection changes neither `myId` nor "lite_id" |
| ClientFacts.OpenKeepsIdentity | script.js:120-125 | "open" changes neither `myId` nor "lite_id" |
| ClientFacts.ReceiveKeepsIdentity | script.js:160-163 | receiving changes neither `myId` nor "lite_id" |
| ClientFacts.IdentityChangesOnlyOnRegenerate | script.js:69-82 | every event except a confirmed regeneration leaves `myId` and the stored "lite_id" as they were |
| ClientFacts.RegenerateStoresFreshId | script.js:69-82 | an unconfirmed regeneration does nothing. A confirmed one stores and adopts a freshly generated id, closes the current connection while leaving it in the slot, and reports the regeneration |

## Left out

- Text.ToUpper: handles only ASCII letters. `toUpperCase` also maps non-ASCII letters, which the model keeps unchanged. This matches the alphabet identities are drawn from.
- The DOM:
  - element creation;
  - scrolling;
  - the `btn_` element ids (sidebar membership stands in for the `getElementById` guard);
  - the "Your ID:" label that `peer.on("open")` writes.
- PeerJS internals: signalling, `peer.destroy()`, reconnection and the transport. A connection is an opaque handle whose callbacks arrive as events.
- JSON parsing: a `bubble_` key always holds a well-formed message log. A corrupt value, which would make `JSON.parse` throw, cannot be represented.
- Remote payloads are strings. A peer running other code could send another JSON value.
- Exceptions thrown by `close()` are ignored, as the script swallows them.
- Clock time: the 4-second delay is not modelled, only the timer's firing as an event.
- `Math.random()` is replaced by the draws passed in. `confirm` and `prompt` are replaced by answers passed in.
- The key enumeration order of `Object.keys(localStorage)` is a parameter of start-up.
- Storage quota: `localStorage.setItem` throws once the origin's quota is full, which would stop a handler partway. For example, "Connected." is not shown when the write at script.js:122 fails, and a received line is shown but not filed when script.js:162 fails. The model's `SetItem` and `SaveMessage` always succeed.
- Other tabs: every tab of the same origin shares `localStorage`. Another tab could change "lite_id", "last_peer" or a "bubble_" log between two events here, and its append could be lost to the read-modify-write at script.js:204-206. The model has a single writer.
- String encoding: Dafny strings are sequences of Unicode scalar values, while JavaScript strings are UTF-16 code units. The `trim`, `startsWith` and `replace` uses here do not depend on the difference.
