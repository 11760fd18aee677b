/** Locally chosen display names for peers, stored under "nickname_" + id. */
module Nicknames {
  import opened Wrappers
  import opened Text
  import opened Storage

  const NicknamePrefix: string := "nickname_"

  function NicknameKey(p: string): (k: string)
    ensures !IsBubbleKey(k)
    ensures k != IdKey && k != LastPeerKey
    ensures |NicknamePrefix| <= |k| && k[|NicknamePrefix|..] == p
  {
    var k := NicknamePrefix + p;
    assert k[0] != BubblePrefix[0] && k[0] != IdKey[0] && k[1] != LastPeerKey[1];
    k
  }

  /** `getNickname`: the stored nickname, `None` when there is none. */
  function GetNickname(st: Store, p: string): Option<string> {
    GetItem(st, NicknameKey(p))
  }

  /** `setNickname`: stores `name` for `p` and touches no other key. */
  function SetNickname(st: Store, p: string, name: string): (r: Store)
    ensures GetNickname(r, p) == Some(name)
    ensures r.Keys == st.Keys + {NicknameKey(p)}
    ensures forall k :: k in st && k != NicknameKey(p) ==> r[k] == st[k]
  {
    SetItem(st, NicknameKey(p), name)
  }

  /** `displayName`: `getNickname(p) || p`. */
  function DisplayName(st: Store, p: string): string {
    var n := GetNickname(st, p);
    if Truthy(n) then n.value else p
  }

  /** Distinct peers have distinct nickname keys. */
  lemma NicknameKeyInjective(p: string, q: string)
    requires p != q
    ensures NicknameKey(p) != NicknameKey(q)
  {
  }

  /** Setting one peer's nickname leaves every other peer's display name alone. */
  lemma SetNicknameKeepsOthers(st: Store, p: string, name: string, q: string)
    requires p != q
    ensures DisplayName(SetNickname(st, p, name), q) == DisplayName(st, q)
  {
    NicknameKeyInjective(p, q);
    assert GetNickname(SetNickname(st, p, name), q) == GetNickname(st, q);
  }

  /** The renamed peer shows the trimmed answer, or its raw id when that is "". */
  lemma RenamedPeerName(st: Store, p: string, answer: string)
    ensures DisplayName(SetNickname(st, p, Trim(answer)), p) == if AllSpace(answer) then p else Trim(answer)
  {
    TrimEmptyIff(answer);
  }

  /** Renaming a peer with a prompt answer stores the trimmed answer; the
      peer is then shown under that name, or under its raw id when the
      answer trims to "", and every other peer keeps its display name. */
  lemma RenameDisplayName(st: Store, p: string, answer: string, q: string)
    ensures var st' := SetNickname(st, p, Trim(answer));
            DisplayName(st', q) == if q != p then DisplayName(st, q)
                                   else if AllSpace(answer) then p
                                   else Trim(answer)
  {
    if q == p {
      RenamedPeerName(st, p, answer);
    } else {
      SetNicknameKeepsOthers(st, p, Trim(answer), q);
    }
  }
}
