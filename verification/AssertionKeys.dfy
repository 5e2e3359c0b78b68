/** Per-application assertion keys and their handover (`app/services/assertion_keys.py`). */
module AssertionKeys {
  import opened Wrappers
  import opened Domains

  const MAX_ACTIVATION: Time := 30 * 24 * HOUR

  datatype Key = Key(id: string, activeFrom: Time, revokedAt: Option<Time>) {
    predicate Live() {
      revokedAt.None?
    }

    predicate SignsAt(now: Time) {
      Live() && activeFrom <= now
    }
  }

  datatype Error = InvalidAssertionKey | AssertionKeyNotFound

  datatype KeyState = Revoked | Signing | Upcoming | Previous

  /** The place of the key that signs: of those active, the one activated last, and the newest of equals. Keys are in order of creation. */
  function SigningKey(keys: seq<Key>, now: Time): (i: nat)
    ensures i <= |keys|
    ensures i < |keys| ==> keys[i].SignsAt(now)
    ensures i < |keys| ==> forall j | 0 <= j < |keys| && keys[j].SignsAt(now) ::
              keys[j].activeFrom < keys[i].activeFrom || (keys[j].activeFrom == keys[i].activeFrom && j <= i)
    ensures i == |keys| ==> forall j | 0 <= j < |keys| :: !keys[j].SignsAt(now)
  {
    if keys == [] then 0
    else
      var n := |keys| - 1;
      var before := SigningKey(keys[..n], now);
      if keys[n].SignsAt(now) && (before == n || keys[before].activeFrom <= keys[n].activeFrom) then n
      else if before == n then n + 1
      else before
  }

  function Signer(keys: seq<Key>, now: Time): Option<Key> {
    var i := SigningKey(keys, now);
    if i < |keys| then Some(keys[i]) else None
  }

  function RevokedBut(keys: seq<Key>, keep: nat, now: Time): seq<Key> {
    seq(|keys|, i requires 0 <= i < |keys| => if keys[i].Live() && i != keep then keys[i].(revokedAt := Some(now)) else keys[i])
  }

  /** A new key replaces every live key but the one signing now. */
  function Issued(keys: seq<Key>, id: string, activateIn: Time, now: Time): Result<seq<Key>, Error> {
    if !(0 <= activateIn <= MAX_ACTIVATION) then Failure(InvalidAssertionKey)
    else Success(RevokedBut(keys, SigningKey(keys, now), now) + [Key(id, now + activateIn, None)])
  }

  function IndexOf(keys: seq<Key>, id: string): (i: nat)
    ensures i <= |keys|
    ensures i < |keys| ==> keys[i].id == id
    ensures i == |keys| ==> forall k | k in keys :: k.id != id
  {
    if keys == [] || keys[0].id == id then 0 else 1 + IndexOf(keys[1..], id)
  }

  function RevokedKey(keys: seq<Key>, id: string, now: Time): Result<seq<Key>, Error> {
    var i := IndexOf(keys, id);
    if i == |keys| then Failure(AssertionKeyNotFound)
    else if keys[i].Live() then Success(keys[i := keys[i].(revokedAt := Some(now))])
    else Success(keys)
  }

  function StateOf(key: Key, signing: Option<Key>, now: Time): KeyState {
    if !key.Live() then Revoked
    else if signing.Some? && key.id == signing.value.id then Signing
    else if key.activeFrom > now then Upcoming
    else Previous
  }

  class KeyRing {
    var keys: seq<Key>

    constructor ()
      ensures keys == []
    {
      keys := [];
    }

    method Issue(id: string, activateIn: Time, now: Time) returns (error: Option<Error>)
      modifies this
      ensures var issued := Issued(old(keys), id, activateIn, now);
        if issued.Success? then error.None? && keys == issued.value else error == Some(issued.error) && keys == old(keys)
    {
      if !(0 <= activateIn <= MAX_ACTIVATION) {
        return Some(InvalidAssertionKey);
      }
      var current := SigningKey(keys, now);
      ghost var before := keys;
      for i := 0 to |keys|
        invariant |keys| == |before|
        invariant forall j | 0 <= j < i :: keys[j] == RevokedBut(before, current, now)[j]
        invariant forall j | i <= j < |keys| :: keys[j] == before[j]
      {
        if keys[i].Live() && i != current {
          keys := keys[i := keys[i].(revokedAt := Some(now))];
        }
      }
      assert keys == RevokedBut(before, current, now);
      keys := keys + [Key(id, now + activateIn, None)];
      error := None;
    }

    method Revoke(id: string, now: Time) returns (error: Option<Error>)
      modifies this
      ensures var revoked := RevokedKey(old(keys), id, now);
        if revoked.Success? then error.None? && keys == revoked.value else error == Some(revoked.error) && keys == old(keys)
    {
      var i := IndexOf(keys, id);
      if i == |keys| {
        return Some(AssertionKeyNotFound);
      }
      if keys[i].Live() {
        keys := keys[i := keys[i].(revokedAt := Some(now))];
      }
      error := None;
    }
  }

  // --- runs --------------------------------------------------------------------------------------------

  datatype Action =
    | Issue(id: string, activateIn: Time, now: Time)
    | Revoke(id: string, now: Time)

  function Step(keys: seq<Key>, a: Action): seq<Key> {
    var after := match a
      case Issue(id, activateIn, now) => Issued(keys, id, activateIn, now)
      case Revoke(id, now) => RevokedKey(keys, id, now);
    if after.Success? then after.value else keys
  }

  function Run(actions: seq<Action>): seq<Key> {
    if actions == [] then [] else Step(Run(actions[..|actions| - 1]), actions[|actions| - 1])
  }

  function LiveKeys(keys: seq<Key>): set<nat> {
    set i: nat | i < |keys| && keys[i].Live()
  }

  lemma IssuingLeavesTwo(keys: seq<Key>, id: string, activateIn: Time, now: Time)
    requires Issued(keys, id, activateIn, now).Success?
    ensures |LiveKeys(Issued(keys, id, activateIn, now).value)| <= 2
  {
    var after := Issued(keys, id, activateIn, now).value;
    var pair := {SigningKey(keys, now), |keys|};
    forall i | i in LiveKeys(after)
      ensures i in pair
    {
    }
    SubsetSize(LiveKeys(after), pair);
  }

  /** However keys were issued and revoked, at most two of an application's keys are live. */
  lemma {:induction false} AtMostTwoLive(actions: seq<Action>)
    ensures |LiveKeys(Run(actions))| <= 2
  {
    if actions != [] {
      var keys, a := Run(actions[..|actions| - 1]), actions[|actions| - 1];
      AtMostTwoLive(actions[..|actions| - 1]);
      if a.Issue? {
        if Issued(keys, a.id, a.activateIn, a.now).Success? {
          IssuingLeavesTwo(keys, a.id, a.activateIn, a.now);
        }
      } else {
        SubsetSize(LiveKeys(Step(keys, a)), LiveKeys(keys));
      }
    }
  }

  lemma NoThirdLive(keys: seq<Key>, i: nat, j: nat, k: nat)
    requires |LiveKeys(keys)| <= 2 && i < |keys| && j < |keys| && k < |keys| && i != j && j != k && i != k
    requires keys[i].Live() && keys[j].Live()
    ensures !keys[k].Live()
  {
    if keys[k].Live() {
      var three := {i, j, k};
      assert |three| == 3;
      SubsetSize(three, LiveKeys(keys));
    }
  }

  /** The states listed for the keys: `signing` for the signer alone, and at most one other key that is not revoked. */
  ghost predicate ListedStates(keys: seq<Key>, now: Time) {
    var signer := SigningKey(keys, now);
    forall i | 0 <= i < |keys| ::
      var state := StateOf(keys[i], Signer(keys, now), now);
      && (state.Signing? <==> i == signer)
      && (state.Previous? ==> signer < |keys|)
      && (i != signer < |keys| && !state.Revoked? ==>
            forall j | 0 <= j < |keys| && j != i && j != signer :: StateOf(keys[j], Signer(keys, now), now).Revoked?)
  }

  lemma AreListed(keys: seq<Key>, now: Time)
    requires |LiveKeys(keys)| <= 2 && forall j, k | 0 <= j < k < |keys| :: keys[j].id != keys[k].id
    ensures ListedStates(keys, now)
  {
    var signer := SigningKey(keys, now);
    forall i, j | 0 <= i < |keys| && 0 <= j < |keys| && i != j && i != signer && j != signer && signer < |keys| && keys[i].Live()
      ensures !keys[j].Live()
    {
      NoThirdLive(keys, i, signer, j);
    }
  }

  /** So it is after any run; a key is listed as previous only beside one that signs. */
  lemma KeyStatesAre(actions: seq<Action>, now: Time)
    requires forall j, k | 0 <= j < k < |Run(actions)| :: Run(actions)[j].id != Run(actions)[k].id
    ensures ListedStates(Run(actions), now)
  {
    AtMostTwoLive(actions);
    AreListed(Run(actions), now);
  }

  lemma SubsetSize<T>(small: set<T>, large: set<T>)
    requires small <= large
    ensures |small| <= |large|
  {
    var rest := large - small;
    assert large == small + rest;
    assert |large| == |small| + |rest|;
  }

  /** The key with the given index signs at a time, if it signs there and no other comes before it. */
  lemma SignerUnique(keys: seq<Key>, now: Time, i: nat)
    requires i < |keys| && keys[i].SignsAt(now)
    requires forall j | 0 <= j < |keys| && keys[j].SignsAt(now) ::
      keys[j].activeFrom < keys[i].activeFrom || (keys[j].activeFrom == keys[i].activeFrom && j <= i)
    ensures SigningKey(keys, now) == i
  {
  }

  /**
   * Issuing a key leaves the signer as it is until the new key's time comes; from then on, until
   * something else happens, the new key signs. Without a signer the deployment's key goes on signing.
   */
  lemma IssuingHandsOver(keys: seq<Key>, id: string, activateIn: Time, now: Time, t: Time)
    requires 0 <= activateIn <= MAX_ACTIVATION && now <= t
    ensures var after := Issued(keys, id, activateIn, now).value;
      Signer(after, t) == if t < now + activateIn then Signer(keys, now) else Some(Key(id, now + activateIn, None))
  {
    var after := Issued(keys, id, activateIn, now).value;
    var current := SigningKey(keys, now);
    forall j | 0 <= j < |after| && after[j].Live()
      ensures j == current || j == |keys|
    {
    }
    if t >= now + activateIn {
      SignerUnique(after, t, |keys|);
    } else if current < |keys| {
      assert after[current] == keys[current];
      SignerUnique(after, t, current);
    } else {
      var i := SigningKey(after, t);
      assert i < |after| ==> after[i].SignsAt(t);
    }
  }

  /** Revoking a key that does not sign changes no signer; revoking the signer falls back to the best of the rest. */
  lemma RevokingFallsBack(keys: seq<Key>, id: string, now: Time, t: Time)
    requires (exists k | k in keys :: k.id == id) && (forall i, j | 0 <= i < j < |keys| :: keys[i].id != keys[j].id)
    ensures var after := RevokedKey(keys, id, now).value;
      var was, signs := Signer(keys, t), Signer(after, t);
      && (was.Some? && was.value.id != id ==> signs == was)
      && (signs.Some? ==> signs.value.id != id && signs.value in keys)
      && (signs.Some? ==> forall k | k in keys && k.id != id && k.SignsAt(t) :: k.activeFrom <= signs.value.activeFrom)
      && (signs.None? ==> forall k | k in keys && k.id != id :: !k.SignsAt(t))
  {
    var after := RevokedKey(keys, id, now).value;
    var r := IndexOf(keys, id);
    assert forall j | 0 <= j < |keys| && j != r :: after[j] == keys[j] && keys[j].id != id;
    assert !after[r].Live();
    var i := SigningKey(keys, t);
    if i < |keys| && i != r {
      SignerUnique(after, t, i);
    }
  }
}
