/**
 The browser's `localStorage` as the chat client uses it: one map from keys
 to values. A conversation is kept under "bubble_" followed by the peer id;
 its value is modelled as the decoded message sequence instead of JSON text.
 Every other key ("lite_id", "last_peer", "nickname_" + id) holds plain text.
 */
module Storage {
  import opened Wrappers
  import opened Text

  /** One stored chat line: `sender` is "you" for own messages and "anon" for received ones. */
  datatype Message = Message(sender: string, text: string)

  datatype Value = Item(text: string) | Log(messages: seq<Message>)

  const BubblePrefix: string := "bubble_"
  const IdKey: string := "lite_id"
  const LastPeerKey: string := "last_peer"

  predicate IsBubbleKey(k: string) {
    StartsWith(k, BubblePrefix)
  }

  /** Conversation keys hold decoded logs, all other keys hold text. */
  predicate WellFormed(m: map<string, Value>) {
    forall k :: k in m ==> (IsBubbleKey(k) <==> m[k].Log?)
  }

  type Store = m: map<string, Value> | WellFormed(m) witness map[]

  /** `localStorage.getItem(k)` for a text key: `None` plays the part of `null`. */
  function GetItem(st: Store, k: string): Option<string> {
    if k in st && st[k].Item? then Some(st[k].text) else None
  }

  /** JavaScript truthiness of a string-or-null: neither null nor "". */
  predicate Truthy(o: Option<string>) {
    o.Some? && o.value != ""
  }

  /** `localStorage.setItem(k, v)` for a text key. */
  function SetItem(st: Store, k: string, v: string): (r: Store)
    requires !IsBubbleKey(k)
    ensures GetItem(r, k) == Some(v)
    ensures r.Keys == st.Keys + {k}
    ensures forall k' :: k' in st && k' != k ==> r[k'] == st[k']
  {
    st[k := Item(v)]
  }

  lemma FixedKeysAreText()
    ensures !IsBubbleKey(IdKey) && !IsBubbleKey(LastPeerKey) && IdKey != LastPeerKey
  {
    assert IdKey[0] != BubblePrefix[0];
    assert LastPeerKey[0] != BubblePrefix[0];
    assert IdKey[1] != LastPeerKey[1];
  }

  /** `getKey`: the storage key of a peer's conversation. Stripping the
      prefix gives the peer id back. */
  function GetKey(p: string): (k: string)
    ensures IsBubbleKey(k)
    ensures k[|BubblePrefix|..] == p
  {
    BubblePrefix + p
  }

  /** The peer id `rebuildBubbles` reads off a key, `key.replace("bubble_", "")`.
      On a conversation key it inverts `GetKey`. */
  function PeerOfKey(k: string): (p: string)
    ensures IsBubbleKey(k) ==> p == k[|BubblePrefix|..] && GetKey(p) == k
  {
    assert IsBubbleKey(k) ==> OccursAt(k, BubblePrefix, 0) && k == BubblePrefix + k[|BubblePrefix|..];
    ReplaceFirst(k, BubblePrefix, "")
  }

  /** The key a peer's conversation lives under is exactly the conversation
      key that reads back as that peer. */
  lemma KeyOfPeer(p: string, k: string)
    ensures GetKey(p) == k <==> IsBubbleKey(k) && PeerOfKey(k) == p
  {
  }
}
