/**
 The per-peer conversation log: `saveMessage` appends one message under the
 peer's "bubble_" key, `loadBubble` replays the whole log into lines of text.
 */
module Conversation {
  import opened Storage
  import opened Nicknames

  /** The messages stored for `p`: what `JSON.parse(getItem(key) || "[]")`
      yields, the empty sequence when the key is absent. */
  function History(st: Store, p: string): seq<Message> {
    var k := GetKey(p);
    if k in st then st[k].messages else []
  }

  /** `saveMessage`: load, append, store back. Only the peer's own key changes. */
  function SaveMessage(st: Store, p: string, sender: string, text: string): (r: Store)
    ensures History(r, p) == History(st, p) + [Message(sender, text)]
    ensures r.Keys == st.Keys + {GetKey(p)}
    ensures forall k :: k in st && k != GetKey(p) ==> r[k] == st[k]
    ensures forall k :: GetItem(r, k) == GetItem(st, k)
    ensures forall q :: DisplayName(r, q) == DisplayName(st, q)
  {
    var k := GetKey(p);
    var r := st[k := Log(History(st, p) + [Message(sender, text)])];
    assert forall k' :: GetItem(r, k') == GetItem(st, k');
    assert forall q :: GetNickname(r, q) == GetNickname(st, q);
    r
  }

  /** Saving one message leaves every other peer's conversation as it was. */
  lemma SaveMessageIsolated(st: Store, p: string, sender: string, text: string, q: string)
    requires q != p
    ensures History(SaveMessage(st, p, sender, text), q) == History(st, q)
  {
    assert GetKey(q) != GetKey(p) by {
      assert GetKey(q)[|BubblePrefix|..] != GetKey(p)[|BubblePrefix|..];
    }
  }

  /** `saveMessage` called once per element of `ms`, in order. */
  function SaveAll(st: Store, p: string, ms: seq<Message>): Store
    decreases |ms|
  {
    if ms == [] then st
    else SaveAll(SaveMessage(st, p, ms[0].sender, ms[0].text), p, ms[1..])
  }

  /** Appending a run of messages and loading gives back exactly the earlier
      log followed by those messages, in call order. */
  lemma {:induction false} SaveAllThenLoad(st: Store, p: string, ms: seq<Message>)
    ensures History(SaveAll(st, p, ms), p) == History(st, p) + ms
    decreases |ms|
  {
    if ms != [] {
      var st1 := SaveMessage(st, p, ms[0].sender, ms[0].text);
      SaveAllThenLoad(st1, p, ms[1..]);
      assert History(st1, p) + ms[1..] == History(st, p) + ms;
    }
  }

  /** A run of saves for `p` leaves other peers' logs and every text key alone. */
  lemma {:induction false} SaveAllIsolated(st: Store, p: string, ms: seq<Message>)
    ensures forall q :: q != p ==> History(SaveAll(st, p, ms), q) == History(st, q)
    ensures forall k :: GetItem(SaveAll(st, p, ms), k) == GetItem(st, k)
    decreases |ms|
  {
    if ms != [] {
      var st1 := SaveMessage(st, p, ms[0].sender, ms[0].text);
      SaveAllIsolated(st1, p, ms[1..]);
      forall q | q != p ensures History(st1, q) == History(st, q) {
        SaveMessageIsolated(st, p, ms[0].sender, ms[0].text, q);
      }
    }
  }

  /** Two saves on a fresh store, "hi" from this side and then "hello" from
      the peer, load back in call order. */
  lemma TwoMessageScenario()
    ensures var ms := [Message("you", "hi"), Message("anon", "hello")];
            History(SaveAll(map[], "PEERX", ms), "PEERX") == ms
  {
    SaveAllThenLoad(map[], "PEERX", [Message("you", "hi"), Message("anon", "hello")]);
  }

  /** How `loadBubble` labels a message: "You" for own messages, the peer's
      display name for everything else. */
  function Speaker(st: Store, p: string, m: Message): string {
    if m.sender == "you" then "You" else DisplayName(st, p)
  }

  /** The `forEach` of `loadBubble`: one "<speaker>: <text>" line per message, in order. */
  function RenderLines(st: Store, p: string, ms: seq<Message>): (lines: seq<string>)
    ensures |lines| == |ms|
    ensures forall i :: 0 <= i < |ms| ==>
              lines[i] == (if ms[i].sender == "you" then "You" else DisplayName(st, p)) + ": " + ms[i].text
    decreases |ms|
  {
    if ms == [] then []
    else [Speaker(st, p, ms[0]) + ": " + ms[0].text] + RenderLines(st, p, ms[1..])
  }

  /** `loadBubble(p)`: the message pane after it is cleared and refilled. */
  function Render(st: Store, p: string): seq<string> {
    RenderLines(st, p, History(st, p))
  }

  /** Re-rendering after a save shows the old lines plus exactly one line for
      the new message. */
  lemma RenderAfterSave(st: Store, p: string, sender: string, text: string)
    ensures Render(SaveMessage(st, p, sender, text), p)
            == Render(st, p) + [Speaker(st, p, Message(sender, text)) + ": " + text]
  {
    var st' := SaveMessage(st, p, sender, text);
    var a := Render(st', p);
    var b := Render(st, p) + [Speaker(st, p, Message(sender, text)) + ": " + text];
    assert |a| == |b|;
    forall i | 0 <= i < |a| ensures a[i] == b[i] {
      if i < |History(st, p)| {
        assert History(st', p)[i] == History(st, p)[i];
      }
    }
  }
}
