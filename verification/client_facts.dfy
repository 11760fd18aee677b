/** Properties of the chat session's event handlers. */
module ClientFacts {
  import opened Wrappers
  import opened Text
  import opened Storage
  import opened Nicknames
  import opened Conversation
  import opened Identity
  import opened Roster
  import opened Client

  /** What every reachable session satisfies: handles are fresh below
      `nextConn`, the global slot and every data handler refer to a known
      connection, and once any connection exists there is a current peer. */
  predicate Inv(s: Session) {
    && (forall c :: c in s.links ==> c < s.nextConn)
    && (s.connection.Some? ==> s.connection.value in s.links)
    && (s.links != map[] ==> s.connection.Some? && s.currentPeer.Some?)
    && (forall c :: c in s.dataHandlers ==> c in s.links)
  }

  /** After start-up the sidebar holds one button for exactly the peers
      that have a stored conversation. */
  lemma BootRoster(st: Store, keys: seq<string>, draws: IdDraws)
    requires forall k :: k in keys <==> k in st
    ensures NoDuplicates(Boot(st, keys, draws).roster)
    ensures forall p :: p in Boot(st, keys, draws).roster <==> GetKey(p) in st
  {
    RebuiltRoster(st, keys);
  }

  /** Start-up restores a non-empty "last_peer" as the current peer and shows
      its conversation; otherwise there is no current peer and the pane is empty. */
  lemma BootRestoresLastPeer(st: Store, keys: seq<string>, draws: IdDraws)
    ensures var s := Boot(st, keys, draws);
            var last := GetItem(st, LastPeerKey);
            if Truthy(last) then s.currentPeer == last && s.view == Render(st, last.value)
            else s.currentPeer == None && s.view == []
  {
  }

  /** Start-up takes the stored identity, or creates and stores one, and
      begins with no connection. */
  lemma BootIdentity(st: Store, keys: seq<string>, draws: IdDraws)
    ensures var s := Boot(st, keys, draws);
            && s.myId == GetId(st, draws).0 && s.store == GetId(st, draws).1
            && GetItem(s.store, IdKey) == Some(s.myId)
            && s.connection == None && s.links == map[]
  {
  }

  lemma BootEstablishesInv(st: Store, keys: seq<string>, draws: IdDraws)
    ensures Inv(Boot(st, keys, draws))
  {
  }

  lemma AttemptPreservesInv(s: Session, p: string)
    requires Inv(s)
    ensures Inv(Attempt(s, p))
  {
  }

  lemma OfferPreservesInv(s: Session, p: string)
    requires Inv(s)
    ensures Inv(Offer(s, p))
  {
  }

  lemma OpenPreservesInv(s: Session, c: ConnId)
    requires Inv(s)
    ensures Inv(Open(s, c))
  {
  }

  lemma TimeoutPreservesInv(s: Session, c: ConnId)
    requires Inv(s)
    ensures Inv(Timeout(s, c))
  {
  }

  lemma StepPreservesInv(s: Session, e: Event)
    requires Inv(s)
    ensures Inv(Step(s, e))
  {
    match e {
      case ConnectClicked(field) =>
        var p := NormalizeId(field);
        if p != "" { AttemptPreservesInv(s.(roster := AddBubble(s.roster, p)), p); }
      case BubbleClicked(p) => AttemptPreservesInv(s, p);
      case Offered(p) => OfferPreservesInv(s, p);
      case Opened(c) => OpenPreservesInv(s, c);
      case TimedOut(c) => TimeoutPreservesInv(s, c);
      case Received(c, payload) =>
        var r := Deliver(s, payload, s.dataHandlers[c]);
        assert r.(store := s.store, view := s.view) == s;
      case _ =>
    }
  }

  lemma {:induction false} RunPreservesInv(s: Session, events: seq<Event>)
    requires Inv(s)
    ensures Inv(Run(s, events))
    decreases |events|
  {
    if events != [] {
      StepPreservesInv(s, events[0]);
      RunPreservesInv(Step(s, events[0]), events[1..]);
    }
  }

  /** In a reachable session a "data" handler never runs without a current
      peer, so received text is never filed under the string "null". */
  lemma HandlersHaveCurrentPeer(s: Session, c: ConnId)
    requires Inv(s) && s.dataHandlers[c] > 0
    ensures s.currentPeer.Some?
  {
  }

  /** An attempt changes the session exactly when the target is neither empty
      nor this client's own id. */
  lemma AttemptNoOpIff(s: Session, p: string)
    ensures Attempt(s, p) == s <==> p == "" || p == s.myId
  {
    if p != "" && p != s.myId {
      assert Attempt(s, p).nextConn != s.nextConn;
    }
  }

  /** A real attempt first closes the connection the global slot held, then
      points the slot and `currentPeerId` at a fresh, unopened connection to
      the target; it writes nothing to storage. */
  lemma AttemptSupersedes(s: Session, p: string)
    requires p != "" && p != s.myId
    requires Inv(s)
    ensures var r := Attempt(s, p);
            && (s.connection.Some? ==> r.closeCalls == s.closeCalls + [s.connection.value])
            && (s.connection.None? ==> r.closeCalls == s.closeCalls)
            && r.currentPeer == Some(p)
            && r.connection == Some(s.nextConn) && s.nextConn !in s.links
            && r.links[s.nextConn] == Outbound(p, false, true)
            && r.store == s.store
            && r.view == Render(s.store, p) + [AttemptingLine]
  {
  }

  /** The id the connect button derives is "" exactly for a blank field;
      otherwise it has no surrounding white space and no lower-case letter. */
  lemma NormalizeIdShape(field: string)
    ensures NormalizeId(field) == "" <==> AllSpace(field)
    ensures var p := NormalizeId(field);
            p != "" ==> && !IsSpace(p[0]) && !IsSpace(p[|p| - 1])
                        && forall i :: 0 <= i < |p| ==> !IsAsciiLower(p[i])
  {
    TrimEmptyIff(field);
    var t := Trim(field);
    if t != [] {
      ToUpperKeepsSpace(t, 0);
      ToUpperKeepsSpace(t, |t| - 1);
    }
  }

  /** The connect button does nothing for a blank field; otherwise it adds a
      sidebar button for the normalised id (even this client's own) and then
      attempts a connection to it. */
  lemma ConnectClickNormalizes(s: Session, field: string)
    ensures AllSpace(field) ==> ConnectClick(s, field) == s
    ensures !AllSpace(field) ==>
              var p := NormalizeId(field);
              ConnectClick(s, field) == Attempt(s.(roster := AddBubble(s.roster, p)), p)
  {
    NormalizeIdShape(field);
  }

  /** Connecting to oneself only adds a sidebar button. */
  lemma ConnectToSelfOnlyAddsBubble(s: Session, field: string)
    requires NormalizeId(field) == s.myId && s.myId != ""
    ensures ConnectClick(s, field) == s.(roster := AddBubble(s.roster, s.myId))
  {
  }

  /** Renaming only ever writes the renamed peer's nickname key. */
  lemma RenameStore(s: Session, p: string, answer: Option<string>)
    requires p in s.roster && answer.Some?
    ensures Rename(s, p, answer).store == SetNickname(s.store, p, Trim(answer.value))
  {
  }

  lemma SetNicknameKeepsLastPeer(st: Store, p: string, name: string)
    ensures GetItem(SetNickname(st, p, name), LastPeerKey) == GetItem(st, LastPeerKey)
  {
  }

  lemma RenameKeepsLastPeer(s: Session, p: string, answer: Option<string>)
    ensures GetItem(Rename(s, p, answer).store, LastPeerKey) == GetItem(s.store, LastPeerKey)
  {
    if p in s.roster && answer.Some? {
      RenameStore(s, p, answer);
      SetNicknameKeepsLastPeer(s.store, p, Trim(answer.value));
    }
  }

  lemma RegenerateKeepsLastPeer(s: Session, confirmed: bool, draws: IdDraws)
    ensures GetItem(Regenerate(s, confirmed, draws).store, LastPeerKey) == GetItem(s.store, LastPeerKey)
  {
    FixedKeysAreText();
    if confirmed {
      var st := SaveId(s.store, GenerateId(draws));
      assert GetItem(st, LastPeerKey) == GetItem(s.store, LastPeerKey);
    }
  }

  lemma ConnectClickKeepsLastPeer(s: Session, field: string)
    ensures GetItem(ConnectClick(s, field).store, LastPeerKey) == GetItem(s.store, LastPeerKey)
  {
  }

  lemma KeyPressKeepsLastPeer(s: Session, key: string)
    ensures GetItem(KeyPress(s, key).store, LastPeerKey) == GetItem(s.store, LastPeerKey)
  {
  }

  lemma ReceiveKeepsLastPeer(s: Session, c: ConnId, payload: string)
    ensures GetItem(Receive(s, c, payload).store, LastPeerKey) == GetItem(s.store, LastPeerKey)
  {
    SaveAllIsolated(s.store, PeerText(s.currentPeer), Repeat(Message("anon", payload), s.dataHandlers[c]));
  }

  /** "last_peer" changes only when an outbound connection opens or a remote
      peer connects: every other event leaves it as it was. */
  lemma LastPeerWrittenOnlyOnOpenOrOffer(s: Session, e: Event)
    ensures !(e.Opened? && e.conn in s.links && s.links[e.conn].Outbound?) && !e.Offered? ==>
              GetItem(Step(s, e).store, LastPeerKey) == GetItem(s.store, LastPeerKey)
  {
    match e {
      case ConnectClicked(field) => ConnectClickKeepsLastPeer(s, field);
      case BubbleRenamed(p, answer) => RenameKeepsLastPeer(s, p, answer);
      case RegenerateClicked(confirmed, draws) => RegenerateKeepsLastPeer(s, confirmed, draws);
      case KeyDown(key) => KeyPressKeepsLastPeer(s, key);
      case Received(c, payload) => ReceiveKeepsLastPeer(s, c, payload);
      case _ =>
    }
  }

  /** "open" on an outbound connection marks it connected, records its
      target as "last_peer", reports it, and attaches a data handler to the
      connection the global slot holds at that moment. */
  lemma OpenRecordsPeer(s: Session, c: ConnId)
    requires c in s.links && s.links[c].Outbound?
    ensures var r := Open(s, c);
            && r.links[c].connected
            && GetItem(r.store, LastPeerKey) == Some(s.links[c].peer)
            && r.view == s.view + [ConnectedLine]
            && (s.connection.Some? ==> r.dataHandlers == s.dataHandlers + multiset{s.connection.value})
            && PeerText(s.currentPeer) in r.roster
  {
    FixedKeysAreText();
  }

  /** The timer of an attempt that never opened logs one offline line and
      closes the connection the global slot holds when it fires. */
  lemma TimeoutBeforeOpen(s: Session, c: ConnId)
    requires c in s.links && s.links[c] == Outbound(s.links[c].peer, false, true)
    ensures var r := Timeout(s, c);
            && r.view == s.view + [OfflineLine]
            && (s.connection.Some? ==> r.closeCalls == s.closeCalls + [s.connection.value])
            && r.connection == s.connection
  {
  }

  /** A superseded attempt's timer closes the newer connection: attempt `p`,
      then attempt `q`; the first attempt's timer closes the second. */
  lemma StaleTimerClosesNewerConnection(s: Session, p: string, q: string)
    requires p != "" && p != s.myId && q != "" && q != s.myId
    ensures var a := s.nextConn;
            var s2 := Attempt(Attempt(s, p), q);
            var r := Timeout(s2, a);
            && s2.connection == Some(a + 1)
            && r.closeCalls == s2.closeCalls + [a + 1]
            && r.view == s2.view + [OfflineLine]
  {
  }

  /** A superseded attempt that had opened keeps a silent timer: attempt `p`,
      let it open, then attempt `q`; the first attempt's timer reports and
      closes nothing. */
  lemma OpenedStaleTimerClosesNothing(s: Session, p: string, q: string)
    requires p != "" && p != s.myId && q != "" && q != s.myId
    ensures var a := s.nextConn;
            var s3 := Attempt(Open(Attempt(s, p), a), q);
            && Timeout(s3, a).closeCalls == s3.closeCalls
            && Timeout(s3, a).view == s3.view
  {
    var a := s.nextConn;
    var s1 := Attempt(s, p);
    AttemptOpensLink(s, p);
    var s2 := Open(s1, a);
    assert Connected(s2, a);
    var s3 := Attempt(s2, q);
    assert s3.links[a] == s2.links[a];
    SilentAfterOpen(s3, a);
  }

  /** An error before "open" logs one offline line and closes nothing. */
  lemma ErrorBeforeOpen(s: Session, c: ConnId)
    requires c in s.links && s.links[c].Outbound? && !s.links[c].connected
    ensures Error(s, c) == s.(view := s.view + [OfflineLine])
  {
  }

  /** An error followed by the timer reports the peer offline twice. */
  lemma ErrorThenTimeoutLogsTwice(s: Session, c: ConnId)
    requires c in s.links && s.links[c] == Outbound(s.links[c].peer, false, true)
    ensures Timeout(Error(s, c), c).view == s.view + [OfflineLine, OfflineLine]
  {
  }

  /** Connection `c` is an attempt that has reached "open". */
  predicate Connected(s: Session, c: ConnId) {
    c in s.links && s.links[c].Outbound? && s.links[c].connected
  }

  /** Once an attempt has opened, neither its error handler nor its timer
      logs anything or closes anything, however many events came between. */
  lemma SilentAfterOpen(s: Session, c: ConnId)
    requires Connected(s, c)
    ensures Error(s, c) == s
    ensures Timeout(s, c).view == s.view && Timeout(s, c).closeCalls == s.closeCalls
  {
  }

  lemma AttemptKeepsConnected(s: Session, p: string, c: ConnId)
    requires Inv(s) && Connected(s, c)
    ensures Connected(Attempt(s, p), c)
  {
  }

  lemma OfferKeepsConnected(s: Session, p: string, c: ConnId)
    requires Inv(s) && Connected(s, c)
    ensures Connected(Offer(s, p), c)
  {
  }

  lemma OpenKeepsConnected(s: Session, d: ConnId, c: ConnId)
    requires Connected(s, c)
    ensures Connected(Open(s, d), c)
  {
  }

  lemma TimeoutKeepsConnected(s: Session, d: ConnId, c: ConnId)
    requires Connected(s, c)
    ensures Connected(Timeout(s, d), c)
  {
  }

  lemma ReceiveKeepsConnected(s: Session, d: ConnId, payload: string, c: ConnId)
    requires Connected(s, c)
    ensures Connected(Receive(s, d, payload), c)
  {
    var r := Deliver(s, payload, s.dataHandlers[d]);
    assert r.(store := s.store, view := s.view) == s;
  }

  /** An opened attempt stays opened whatever event comes next, so by
      `SilentAfterOpen` its error handler and timer stay silent for good. */
  lemma StepKeepsConnected(s: Session, e: Event, c: ConnId)
    requires Inv(s) && Connected(s, c)
    ensures Connected(Step(s, e), c)
  {
    match e {
      case ConnectClicked(field) =>
        var p := NormalizeId(field);
        if p != "" { AttemptKeepsConnected(s.(roster := AddBubble(s.roster, p)), p, c); }
      case BubbleClicked(p) => AttemptKeepsConnected(s, p, c);
      case Offered(p) => OfferKeepsConnected(s, p, c);
      case Opened(d) => OpenKeepsConnected(s, d, c);
      case TimedOut(d) => TimeoutKeepsConnected(s, d, c);
      case Received(d, payload) => ReceiveKeepsConnected(s, d, payload, c);
      case _ =>
    }
  }

  /** Over any run of events from a session meeting the invariant, an opened
      attempt stays opened. */
  lemma {:induction false} RunKeepsConnected(s: Session, events: seq<Event>, c: ConnId)
    requires Inv(s) && Connected(s, c)
    ensures Connected(Run(s, events), c)
    decreases |events|
  {
    if events != [] {
      StepKeepsConnected(s, events[0], c);
      StepPreservesInv(s, events[0]);
      RunKeepsConnected(Step(s, events[0]), events[1..], c);
    }
  }

  /** The identity a session uses and the one stored under "lite_id". */
  predicate SameIdentity(a: Session, b: Session) {
    a.myId == b.myId && GetItem(a.store, IdKey) == GetItem(b.store, IdKey)
  }

  lemma SetNicknameKeepsId(st: Store, p: string, name: string)
    ensures GetItem(SetNickname(st, p, name), IdKey) == GetItem(st, IdKey)
  {
  }

  lemma RenameKeepsIdentity(s: Session, p: string, answer: Option<string>)
    ensures SameIdentity(Rename(s, p, answer), s)
  {
    if p in s.roster && answer.Some? {
      RenameStore(s, p, answer);
      SetNicknameKeepsId(s.store, p, Trim(answer.value));
    }
  }

  lemma KeyPressKeepsIdentity(s: Session, key: string)
    ensures SameIdentity(KeyPress(s, key), s)
  {
  }

  lemma ConnectClickKeepsIdentity(s: Session, field: string)
    ensures SameIdentity(ConnectClick(s, field), s)
  {
  }

  lemma OfferKeepsIdentity(s: Session, p: string)
    ensures SameIdentity(Offer(s, p), s)
  {
    FixedKeysAreText();
  }

  lemma OpenKeepsIdentity(s: Session, c: ConnId)
    ensures SameIdentity(Open(s, c), s)
  {
    FixedKeysAreText();
  }

  lemma ReceiveKeepsIdentity(s: Session, c: ConnId, payload: string)
    ensures SameIdentity(Receive(s, c, payload), s)
  {
    SaveAllIsolated(s.store, PeerText(s.currentPeer), Repeat(Message("anon", payload), s.dataHandlers[c]));
  }

  /** The identity is never reissued behind the user's back: only a
      confirmed regeneration changes `myId` or the stored "lite_id". */
  lemma IdentityChangesOnlyOnRegenerate(s: Session, e: Event)
    requires !(e.RegenerateClicked? && e.confirmed)
    ensures Step(s, e).myId == s.myId
    ensures GetItem(Step(s, e).store, IdKey) == GetItem(s.store, IdKey)
  {
    match e {
      case ConnectClicked(field) => ConnectClickKeepsIdentity(s, field);
      case BubbleRenamed(p, answer) => RenameKeepsIdentity(s, p, answer);
      case KeyDown(key) => KeyPressKeepsIdentity(s, key);
      case Offered(p) => OfferKeepsIdentity(s, p);
      case Opened(c) => OpenKeepsIdentity(s, c);
      case Received(c, payload) => ReceiveKeepsIdentity(s, c, payload);
      case _ =>
    }
  }

  /** The timer fires once: a second firing changes nothing. */
  lemma TimerFiresOnce(s: Session, c: ConnId)
    ensures var r := Timeout(s, c); Timeout(r, c) == r
  {
  }

  /** An offered connection becomes the global one without closing the
      previous, becomes the current peer's, is recorded as "last_peer" and
      gets a data handler of its own. */
  lemma OfferDoesNotClose(s: Session, p: string)
    requires Inv(s)
    ensures var r := Offer(s, p);
            && r.closeCalls == s.closeCalls
            && r.connection == Some(s.nextConn)
            && r.currentPeer == Some(p)
            && GetItem(r.store, LastPeerKey) == Some(p)
            && p in r.roster
            && r.dataHandlers[s.nextConn] == 1
  {
    FixedKeysAreText();
    assert s.nextConn !in s.dataHandlers;
  }

  /** Data on a connection with one handler is filed as one "anon" message
      under the current peer at delivery time, whichever peer the connection
      was made to; no other conversation changes. */
  lemma ReceivedFilesUnderCurrentPeer(s: Session, c: ConnId, payload: string, q: string)
    requires s.dataHandlers[c] == 1 && s.currentPeer == Some(q)
    ensures var r := Receive(s, c, payload);
            && History(r.store, q) == History(s.store, q) + [Message("anon", payload)]
            && r.view == s.view + [DisplayName(s.store, q) + ": " + payload]
            && (forall p :: p != q ==> History(r.store, p) == History(s.store, p))
  {
    SaveAllThenLoad(s.store, q, Repeat(Message("anon", payload), 1));
    SaveAllIsolated(s.store, q, Repeat(Message("anon", payload), 1));
  }

  /** Data on a connection that never got a handler is ignored. */
  lemma ReceivedWithoutHandler(s: Session, c: ConnId, payload: string)
    requires c !in s.dataHandlers
    ensures Receive(s, c, payload) == s
  {
  }

  /** What a real attempt does to the handler count, the id counter and the links. */
  lemma AttemptOpensLink(s: Session, p: string)
    requires p != "" && p != s.myId
    ensures var r := Attempt(s, p);
            && r.dataHandlers == s.dataHandlers
            && r.nextConn == s.nextConn + 1
            && s.nextConn in r.links && r.links[s.nextConn].Outbound?
  {
  }

  /** An inbound connection takes the global slot and gets one handler,
      leaving every earlier link as it was. */
  lemma OfferTakesSlot(s: Session, q: string, c: ConnId)
    requires c in s.links && c != s.nextConn
    ensures var r := Offer(s, q);
            && r.dataHandlers == s.dataHandlers + multiset{s.nextConn}
            && r.connection == Some(s.nextConn)
            && r.currentPeer == Some(q)
            && c in r.links && r.links[c] == s.links[c]
  {
  }

  /** "open" attaches its handler to whatever the global slot holds. */
  lemma OpenAttachesToSlot(s: Session, c: ConnId)
    requires c in s.links && s.links[c].Outbound? && s.connection.Some?
    ensures var r := Open(s, c);
            && r.dataHandlers == s.dataHandlers + multiset{s.connection.value}
            && r.currentPeer == s.currentPeer
  {
  }

  /** An inbound connection that arrives while an attempt is pending,
      followed by that attempt opening, ends up with two data handlers: the
      attempt's "open" attaches its handler to the global slot, which by
      then holds the inbound connection. */
  lemma DoubleHandlerAttached(s: Session, p: string, q: string)
    requires Inv(s) && p != "" && p != s.myId
    ensures var a := s.nextConn;
            var s3 := Open(Offer(Attempt(s, p), q), a);
            && s3.dataHandlers[a + 1] == 2
            && s3.currentPeer == Some(q)
  {
    var a := s.nextConn;
    assert a + 1 !in s.dataHandlers;
    var s1 := Attempt(s, p);
    AttemptOpensLink(s, p);
    var s2 := Offer(s1, q);
    OfferTakesSlot(s1, q, a);
    OpenAttachesToSlot(s2, a);
    assert (s.dataHandlers + multiset{a + 1} + multiset{a + 1})[a + 1] == 2;
  }

  /** Each payload on a connection with two handlers is filed twice. */
  lemma TwoHandlersFileTwice(s: Session, c: ConnId, payload: string, q: string)
    requires s.dataHandlers[c] == 2 && s.currentPeer == Some(q)
    ensures var m := Message("anon", payload);
            History(Receive(s, c, payload).store, q) == History(s.store, q) + [m, m]
  {
    var m := Message("anon", payload);
    SaveAllThenLoad(s.store, q, Repeat(m, 2));
    assert Repeat(m, 2) == [m, m];
  }

  /** The Enter key sends exactly when the trimmed input is non-empty, the
      global slot holds a connection (closed or not) and `currentPeerId` is
      a non-empty string; any other key press, or a failed gate, changes nothing. */
  lemma SendGateIff(s: Session, key: string)
    ensures KeyPress(s, key) != s <==>
              key == EnterKey && Trim(s.draft) != "" && s.connection.Some? && Truthy(s.currentPeer)
  {
    if key == EnterKey && Trim(s.draft) != "" && s.connection.Some? && Truthy(s.currentPeer) {
      assert |KeyPress(s, key).sent| == |s.sent| + 1;
    }
  }

  /** A send that passes the gate transmits the trimmed text once, shows it,
      appends exactly one "you" message to the current peer's conversation
      and clears the input. */
  lemma SendAppendsOne(s: Session)
    requires Trim(s.draft) != "" && s.connection.Some? && Truthy(s.currentPeer)
    ensures var r := KeyPress(s, EnterKey);
            && r.sent == s.sent + [Transmission(s.connection.value, Trim(s.draft))]
            && r.view == s.view + ["You: " + Trim(s.draft)]
            && History(r.store, s.currentPeer.value)
               == History(s.store, s.currentPeer.value) + [Message("you", Trim(s.draft))]
            && r.draft == ""
  {
    var r := KeyPress(s, EnterKey);
    assert r.store == SaveMessage(s.store, s.currentPeer.value, "you", Trim(s.draft));
  }

  /** A send leaves every other peer's conversation untouched. */
  lemma SendTouchesOnlyCurrentPeer(s: Session, key: string, p: string)
    requires s.currentPeer != Some(p)
    ensures History(KeyPress(s, key).store, p) == History(s.store, p)
  {
    var r := KeyPress(s, key);
    if r != s {
      SaveMessageIsolated(s.store, s.currentPeer.value, "you", Trim(s.draft), p);
    }
  }

  /** A rename from a button that is not in the sidebar, or a cancelled
      prompt, changes nothing. */
  lemma RenameCancelled(s: Session, p: string, answer: Option<string>)
    requires p !in s.roster || answer.None?
    ensures Rename(s, p, answer) == s
  {
  }

  /** Renaming from the sidebar makes the peer show under the trimmed answer,
      or under its raw id when that is empty, and re-renders the pane when
      the peer is the current one. */
  lemma RenameShowsNewName(s: Session, p: string, answer: string)
    requires p in s.roster
    ensures DisplayName(Rename(s, p, Some(answer)).store, p)
            == if AllSpace(answer) then p else Trim(answer)
    ensures Rename(s, p, Some(answer)).view
            == if s.currentPeer == Some(p) then Render(Rename(s, p, Some(answer)).store, p) else s.view
  {
    RenameDisplayName(s.store, p, answer, p);
  }

  /** Renaming one peer leaves every other peer's display name alone. */
  lemma RenameKeepsOtherNames(s: Session, p: string, answer: string, q: string)
    requires p in s.roster && q != p
    ensures DisplayName(Rename(s, p, Some(answer)).store, q) == DisplayName(s.store, q)
  {
    RenameDisplayName(s.store, p, answer, q);
  }

  /** A confirmed regeneration stores a fresh identity, makes it the client's
      id, closes the current connection but leaves it in the global slot;
      an unconfirmed one changes nothing. */
  lemma RegenerateStoresFreshId(s: Session, confirmed: bool, draws: IdDraws)
    ensures !confirmed ==> Regenerate(s, confirmed, draws) == s
    ensures confirmed ==>
              var r := Regenerate(s, confirmed, draws);
              && r.myId == GenerateId(draws) && IsIdentity(r.myId)
              && GetItem(r.store, IdKey) == Some(r.myId)
              && r.connection == s.connection
              && (s.connection.Some? ==> r.closeCalls == s.closeCalls + [s.connection.value])
              && r.view == s.view + [RegeneratedLine]
  {
  }
}
