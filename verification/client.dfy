/**
 The event-driven chat session: the globals `connection`, `currentPeerId`
 and `myId`, the message pane, the sidebar, the message input, and the
 state each PeerJS connection object's handlers close over. Every browser
 or PeerJS callback is one `Event`; `Step` runs its handler to completion.
 */
module Client {
  import opened Wrappers
  import opened Text
  import opened Storage
  import opened Nicknames
  import opened Conversation
  import opened Identity
  import opened Roster

  /** An opaque handle for one PeerJS data connection. */
  type ConnId = nat

  const AttemptingLine: string := "Server: Attempting connection..."
  const ConnectedLine: string := "Server: Connected."
  const OfflineLine: string := "Server: This user is offline."
  const ClosedLine: string := "Server: Connection closed."
  const RegeneratedLine: string := "Server: Your ID has been regenerated."
  const EnterKey: string := "Enter"

  /** What a connection's handlers close over. An outbound connection made by
      `attemptConnection` carries its target, its own `connected` flag and
      whether its 4-second timer is still to fire. A connection offered by a
      remote peer has no open, error, close or timer handler. */
  datatype Link =
    | Outbound(peer: string, connected: bool, timerPending: bool)
    | Inbound(peer: string)

  /** One `connection.send(payload)` call. */
  datatype Transmission = Transmission(conn: ConnId, payload: string)

  datatype Session = Session(
    store: Store,                    // localStorage
    myId: string,                    // myId
    connection: Option<ConnId>,      // the global `connection`; close() does not clear it
    currentPeer: Option<string>,     // currentPeerId
    view: seq<string>,               // the message pane, one entry per addMessage
    roster: seq<string>,             // the sidebar buttons, by peer id
    draft: string,                   // messageInput.value
    links: map<ConnId, Link>,        // every connection object created so far
    dataHandlers: multiset<ConnId>,  // one entry per "data" handler attached
    closeCalls: seq<ConnId>,         // every close() issued, in order
    sent: seq<Transmission>,         // every send() issued, in order
    nextConn: ConnId)                // the handle the next connection receives

  datatype Event =
    | ConnectClicked(field: string)                    // connectBtn, with peerIdInput's value
    | BubbleClicked(peer: string)                      // a sidebar button
    | BubbleRenamed(peer: string, answer: Option<string>) // context menu, prompt's answer
    | RegenerateClicked(confirmed: bool, draws: IdDraws)  // regenBtn, confirm's answer
    | Typed(text: string)                              // the user edits the message input
    | KeyDown(key: string)                             // a key press in the message input
    | Offered(peer: string)                            // peer "connection": a remote peer connects
    | Opened(conn: ConnId)                             // connection "open"
    | Errored(conn: ConnId)                            // connection "error"
    | Closed(conn: ConnId)                             // connection "close"
    | TimedOut(conn: ConnId)                           // the attempt's 4-second timer
    | Received(conn: ConnId, payload: string)          // connection "data"

  /** `currentPeerId` where JavaScript turns it into a string: null reads as "null". */
  function PeerText(p: Option<string>): string {
    if p.Some? then p.value else "null"
  }

  /** The close log after `if (connection) connection.close()`. */
  function CloseCurrent(s: Session): seq<ConnId> {
    if s.connection.Some? then s.closeCalls + [s.connection.value] else s.closeCalls
  }

  /** Start-up: `rebuildBubbles()` over the stored keys in the order the
      browser enumerates them, then `initPeer()`. */
  function Boot(st: Store, keys: seq<string>, draws: IdDraws): Session {
    var last := GetItem(st, LastPeerKey);
    var issued := GetId(st, draws);
    Session(issued.1, issued.0, None,
            if Truthy(last) then Some(last.value) else None,
            if Truthy(last) then Render(st, last.value) else [],
            ScanKeys([], keys), "", map[], multiset{}, [], [], 0)
  }

  /** `attemptConnection(p)`. */
  function Attempt(s: Session, p: string): Session {
    if p == "" || p == s.myId then s
    else
      var n := s.nextConn;
      s.(closeCalls := CloseCurrent(s),
         currentPeer := Some(p),
         view := Render(s.store, p) + [AttemptingLine],
         connection := Some(n),
         links := s.links[n := Outbound(p, false, true)],
         nextConn := n + 1)
  }

  /** The id the connect button derives from the input field: trimmed, then upper-cased. */
  function NormalizeId(field: string): string {
    ToUpper(Trim(field))
  }

  /** `connectBtn.onclick`. */
  function ConnectClick(s: Session, field: string): Session {
    var p := NormalizeId(field);
    if p == "" then s
    else Attempt(s.(roster := AddBubble(s.roster, p)), p)
  }

  /** The button's context-menu handler: a non-null prompt answer is trimmed
      and stored, and the pane is re-rendered when the peer is the current one. */
  function Rename(s: Session, p: string, answer: Option<string>): Session {
    if p !in s.roster || answer.None? then s
    else
      var st := SetNickname(s.store, p, Trim(answer.value));
      s.(store := st, view := if s.currentPeer == Some(p) then Render(st, p) else s.view)
  }

  /** `regenBtn.onclick`: a new id is saved, the connection closed, and
      `initPeer` re-reads the id. */
  function Regenerate(s: Session, confirmed: bool, draws: IdDraws): Session {
    if !confirmed then s
    else
      var st := SaveId(s.store, GenerateId(draws));
      var (id, st') := GetId(st, draws);
      s.(store := st', closeCalls := CloseCurrent(s), myId := id, view := s.view + [RegeneratedLine])
  }

  /** `setupConnection()`: a sidebar button for `currentPeerId`, and a "data"
      handler on whatever the global `connection` holds. */
  function SetupConnection(s: Session): Session {
    s.(roster := AddBubble(s.roster, PeerText(s.currentPeer)),
       dataHandlers := if s.connection.Some? then s.dataHandlers + multiset{s.connection.value}
                       else s.dataHandlers)
  }

  /** The `peer.on("connection")` handler of `initPeer`. */
  function Offer(s: Session, p: string): Session {
    var n := s.nextConn;
    FixedKeysAreText();
    SetupConnection(s.(connection := Some(n),
                       currentPeer := Some(p),
                       store := SetItem(s.store, LastPeerKey, p),
                       links := s.links[n := Inbound(p)],
                       nextConn := n + 1))
  }

  /** The "open" handler of an outbound connection. */
  function Open(s: Session, c: ConnId): Session {
    if c !in s.links || !s.links[c].Outbound? then s
    else
      var l := s.links[c];
      FixedKeysAreText();
      SetupConnection(s.(links := s.links[c := l.(connected := true)],
                         store := SetItem(s.store, LastPeerKey, l.peer),
                         view := s.view + [ConnectedLine]))
  }

  /** The "error" handler of an outbound connection. */
  function Error(s: Session, c: ConnId): Session {
    if c in s.links && s.links[c].Outbound? && !s.links[c].connected then
      s.(view := s.view + [OfflineLine])
    else s
  }

  /** The "close" handler of an outbound connection. */
  function Close(s: Session, c: ConnId): Session {
    if c in s.links && s.links[c].Outbound? then s.(view := s.view + [ClosedLine]) else s
  }

  /** The 4-second timer of an outbound attempt: it fires once, and if the
      attempt never opened it reports the peer offline and closes whatever
      the global `connection` holds by then. */
  function Timeout(s: Session, c: ConnId): Session {
    if c !in s.links || !s.links[c].Outbound? || !s.links[c].timerPending then s
    else
      var l := s.links[c];
      var s' := s.(links := s.links[c := l.(timerPending := false)]);
      if l.connected then s'
      else s'.(view := s.view + [OfflineLine], closeCalls := CloseCurrent(s))
  }

  function Repeat<T>(x: T, n: nat): (r: seq<T>)
    ensures |r| == n && forall i :: 0 <= i < n ==> r[i] == x
  {
    if n == 0 then [] else [x] + Repeat(x, n - 1)
  }

  /** `n` runs of the "data" handler: each shows the payload under the
      display name of `currentPeerId` at delivery time and files it there as
      an "anon" message. */
  function Deliver(s: Session, payload: string, n: nat): (r: Session)
    ensures var p := PeerText(s.currentPeer);
            && r.store == SaveAll(s.store, p, Repeat(Message("anon", payload), n))
            && r.view == s.view + Repeat(DisplayName(s.store, p) + ": " + payload, n)
    ensures r.(store := s.store, view := s.view) == s
    decreases n
  {
    if n == 0 then s
    else
      var p := PeerText(s.currentPeer);
      var line := DisplayName(s.store, p) + ": " + payload;
      var s1 := s.(view := s.view + [line], store := SaveMessage(s.store, p, "anon", payload));
      var r := Deliver(s1, payload, n - 1);
      assert [line] + Repeat(line, n - 1) == Repeat(line, n);
      assert Repeat(Message("anon", payload), n)[1..] == Repeat(Message("anon", payload), n - 1);
      r
  }

  /** A "data" event: the handler runs once per attachment to `c`. */
  function Receive(s: Session, c: ConnId, payload: string): Session {
    Deliver(s, payload, s.dataHandlers[c])
  }

  /** The message input's "keydown" handler. */
  function KeyPress(s: Session, key: string): Session {
    if key != EnterKey then s
    else
      var msg := Trim(s.draft);
      if msg == "" || s.connection.None? || !Truthy(s.currentPeer) then s
      else
        s.(sent := s.sent + [Transmission(s.connection.value, msg)],
           view := s.view + ["You: " + msg],
           store := SaveMessage(s.store, s.currentPeer.value, "you", msg),
           draft := "")
  }

  function Step(s: Session, e: Event): Session {
    match e
    case ConnectClicked(field) => ConnectClick(s, field)
    case BubbleClicked(p) => if p in s.roster then Attempt(s, p) else s
    case BubbleRenamed(p, answer) => Rename(s, p, answer)
    case RegenerateClicked(confirmed, draws) => Regenerate(s, confirmed, draws)
    case Typed(text) => s.(draft := text)
    case KeyDown(key) => KeyPress(s, key)
    case Offered(p) => Offer(s, p)
    case Opened(c) => Open(s, c)
    case Errored(c) => Error(s, c)
    case Closed(c) => Close(s, c)
    case TimedOut(c) => Timeout(s, c)
    case Received(c, payload) => Receive(s, c, payload)
  }

  function Run(s: Session, events: seq<Event>): Session
    decreases |events|
  {
    if events == [] then s else Run(Step(s, events[0]), events[1..])
  }
}
