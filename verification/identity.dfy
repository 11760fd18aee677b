/**
 The client's own address: an 8-character token over "A-Z0-9", created on
 first use and kept under "lite_id". `Math.random` is replaced by the
 indices it would have chosen.
 */
module Identity {
  import opened Wrappers
  import opened Storage

  const Alphabet: string := "ABCDEFGHIJKLMNOPQRSTUVWXYZ0123456789"
  const IdLength: nat := 8

  /** One `Math.floor(Math.random() * chars.length)`: an index into the alphabet. */
  type Draw = i: int | 0 <= i < 36

  /** The draws of one `generateId` call, one per loop iteration. */
  type IdDraws = d: seq<Draw> | |d| == 8 witness [0, 0, 0, 0, 0, 0, 0, 0]

  predicate IsIdentity(s: string) {
    |s| == IdLength && forall i :: 0 <= i < |s| ==> s[i] in Alphabet
  }

  /** The loop of `generateId`: character `i` is the alphabet symbol of draw `i`. */
  function Spell(draws: seq<Draw>): (s: string)
    ensures |s| == |draws|
    ensures forall i :: 0 <= i < |draws| ==> s[i] == Alphabet[draws[i]]
    decreases |draws|
  {
    if draws == [] then []
    else Spell(draws[..|draws| - 1]) + [Alphabet[draws[|draws| - 1]]]
  }

  /** `generateId`: eight characters, each the alphabet symbol its draw selects. */
  function GenerateId(draws: IdDraws): (id: string)
    ensures IsIdentity(id)
    ensures forall i :: 0 <= i < IdLength ==> id[i] == Alphabet[draws[i]]
  {
    Spell(draws)
  }

  /** The first position of `c` in `s`. */
  function IndexIn(s: string, c: char): (i: nat)
    requires c in s
    ensures i < |s| && s[i] == c
    ensures forall j :: 0 <= j < i ==> s[j] != c
    decreases |s|
  {
    if s[0] == c then 0 else 1 + IndexIn(s[1..], c)
  }

  /** The draws that spell out `id`. */
  function DrawsFor(id: string): (d: IdDraws)
    requires IsIdentity(id)
    ensures forall i :: 0 <= i < IdLength ==> Alphabet[d[i]] == id[i]
  {
    seq(IdLength, i requires 0 <= i < IdLength => IndexIn(Alphabet, id[i]))
  }

  /** `generateId` can return every identity: its results are exactly the
      8-character strings over the alphabet. */
  lemma EveryIdentityIsGenerated(id: string)
    requires IsIdentity(id)
    ensures GenerateId(DrawsFor(id)) == id
  {
  }

  /** `saveId`. */
  function SaveId(st: Store, id: string): (r: Store)
    ensures GetItem(r, IdKey) == Some(id)
    ensures r.Keys == st.Keys + {IdKey}
    ensures forall k :: k in st && k != IdKey ==> r[k] == st[k]
  {
    FixedKeysAreText();
    SetItem(st, IdKey, id)
  }

  /** `getId`, get-or-create: a stored non-empty id is returned with the store
      unchanged; otherwise a fresh identity is generated and stored. */
  function GetId(st: Store, draws: IdDraws): (r: (string, Store))
    ensures Truthy(GetItem(st, IdKey)) ==> r.0 == GetItem(st, IdKey).value && r.1 == st
    ensures !Truthy(GetItem(st, IdKey)) ==>
              && IsIdentity(r.0)
              && (forall i :: 0 <= i < IdLength ==> r.0[i] == Alphabet[draws[i]])
              && r.1 == SaveId(st, r.0)
    ensures GetItem(r.1, IdKey) == Some(r.0) && r.0 != ""
  {
    var stored := GetItem(st, IdKey);
    if Truthy(stored) then
      (stored.value, st)
    else
      var id := GenerateId(draws);
      (id, SaveId(st, id))
  }

  /** A second `getId` returns the first one's id and changes nothing,
      whatever it would have drawn. */
  lemma GetIdIsStable(st: Store, first: IdDraws, second: IdDraws)
    ensures GetId(GetId(st, first).1, second) == GetId(st, first)
  {
  }
}
