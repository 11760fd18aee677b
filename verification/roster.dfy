/**
 The sidebar of peer buttons. `addBubble` refuses a second button for the
 same id; `rebuildBubbles` recreates one button per conversation key.
 */
module Roster {
  import opened Storage

  predicate NoDuplicates(roster: seq<string>) {
    forall i, j :: 0 <= i < j < |roster| ==> roster[i] != roster[j]
  }

  /** `addBubble`: appends a button for `p` unless one is already there. */
  function AddBubble(roster: seq<string>, p: string): (r: seq<string>)
    ensures p in r
    ensures forall q :: q in r <==> q in roster || q == p
    ensures p in roster ==> r == roster
    ensures roster <= r
    ensures NoDuplicates(roster) ==> NoDuplicates(r)
  {
    if p in roster then roster else roster + [p]
  }

  /** Adding the same button twice is adding it once. */
  lemma AddBubbleIdempotent(roster: seq<string>, p: string)
    ensures AddBubble(AddBubble(roster, p), p) == AddBubble(roster, p)
  {
  }

  /** The `forEach` over `Object.keys(localStorage)` in `rebuildBubbles`: every
      key with the "bubble_" prefix adds a button for the id after the prefix. */
  function ScanKeys(roster: seq<string>, keys: seq<string>): (r: seq<string>)
    ensures forall p :: p in r <==> p in roster || GetKey(p) in keys
    ensures NoDuplicates(roster) ==> NoDuplicates(r)
    ensures roster <= r
    decreases |keys|
  {
    if keys == [] then roster
    else
      var k := keys[0];
      var next := if IsBubbleKey(k) then AddBubble(roster, PeerOfKey(k)) else roster;
      assert forall p :: GetKey(p) in keys <==> GetKey(p) == k || GetKey(p) in keys[1..];
      assert forall p :: p in next <==> p in roster || GetKey(p) == k by {
        forall p ensures p in next <==> p in roster || GetKey(p) == k {
          KeyOfPeer(p, k);
        }
      }
      ScanKeys(next, keys[1..])
  }

  /** The rebuilt sidebar, given an enumeration of the store's keys, holds
      one button for exactly the peers that have a conversation key. */
  lemma RebuiltRoster(st: Store, keys: seq<string>)
    requires forall k :: k in keys <==> k in st
    ensures NoDuplicates(ScanKeys([], keys))
    ensures forall p :: p in ScanKeys([], keys) <==> GetKey(p) in st
  {
  }
}
