/**
 Recovery of the per-device frame corrections from the driver's checkpoint. Corrections are keyed
 by physical serial: a live device gets its own back whatever slot it now has, and the others are
 parked where no live device is.
 */
module FrameRecovery {
  import opened Common
  import opened Rotations
  import opened AlignmentField
  import opened Counting
  import FieldMath


  type Key = nat       // zero is no identity
  type Frame = Rigid

  predicate ValidFrame(frame: Frame) {
    Norm2(frame.rotation) > 0.000000000001 && FieldMath.Bounded(frame.translation, FieldMath.MaxAbsTranslation)
  }

  function UnitFrame(c: Curves, frame: Frame): Frame
    requires c.Lawful() && ValidFrame(frame)
  {
    Rigid(Normalized(c, frame.rotation), frame.translation)
  }

  datatype Checkpoint = Checkpoint(answersRuntimeState: bool, protocolMatches: bool, session: nat, profileKey: nat,
                                   keys: seq<Key>, frames: seq<Frame>)

  predicate Shaped(saved: Checkpoint) {
    |saved.keys| == Slots && |saved.frames| == Slots
  }

  predicate Belongs(saved: Checkpoint, session: nat, profile: nat) {
    && saved.answersRuntimeState && saved.protocolMatches && session != 0 && saved.session == session
    && profile != 0 && saved.profileKey == profile
  }

  predicate Distinct(keys: seq<Key>) {
    forall i, j :: 0 <= i < j < |keys| && keys[i] != 0 ==> keys[i] != keys[j]
  }

  /** The first slot that holds `key`, or the length. */
  function First(keys: seq<Key>, key: Key): (i: nat)
    ensures i <= |keys| && (i < |keys| ==> keys[i] == key)
    ensures forall j :: 0 <= j < i ==> keys[j] != key
  {
    if keys == [] || keys[0] == key then 0 else 1 + First(keys[1..], key)
  }

  /** Who a slot belongs to: the live device in it, or the correction parked in it. */
  function Holder(serials: seq<Key>, keys: seq<Key>, id: nat): Key
    requires id < |serials| == |keys|
  {
    if serials[id] != 0 then serials[id] else keys[id]
  }

  // ---------------------------------------------------------------------------
  // What recovery promises
  // ---------------------------------------------------------------------------

  /** A live device has its own saved correction, in the slot it is in now. */
  predicate LiveRestored(c: Curves, saved: Checkpoint, serials: seq<Key>, frames: seq<Frame>, keys: seq<Key>)
    requires c.Lawful() && Shaped(saved) && |serials| == |frames| == |keys| == Slots
  {
    forall id :: 0 <= id < Slots && serials[id] != 0 ==> OwnRestored(c, saved, serials[id], frames[id], keys[id])
  }

  predicate OwnRestored(c: Curves, saved: Checkpoint, serial: Key, frame: Frame, key: Key)
    requires c.Lawful() && Shaped(saved)
  {
    var k := First(saved.keys, serial);
    if k < Slots then key == serial && ValidFrame(saved.frames[k]) && frame == UnitFrame(c, saved.frames[k])
    else key == 0 && frame == Still
  }

  /** Every correction in a slot no live device is in is a saved one, with its identity. */
  predicate OnlySaved(c: Curves, saved: Checkpoint, serials: seq<Key>, frames: seq<Frame>, keys: seq<Key>)
    requires c.Lawful() && Shaped(saved) && |serials| == |frames| == |keys| == Slots
  {
    forall id :: 0 <= id < Slots && serials[id] == 0 ==> IsSaved(c, saved, frames[id], keys[id])
  }

  predicate IsSaved(c: Curves, saved: Checkpoint, frame: Frame, key: Key)
    requires c.Lawful() && Shaped(saved)
  {
    if key == 0 then frame == Still
    else exists k :: 0 <= k < Slots && saved.keys[k] == key && ValidFrame(saved.frames[k])
                     && frame == UnitFrame(c, saved.frames[k])
  }

  function Identities(serials: seq<Key>, savedKeys: seq<Key>): set<Key> {
    (set i | 0 <= i < |serials| && serials[i] != 0 :: serials[i])
    + (set i | 0 <= i < |savedKeys| && savedKeys[i] != 0 :: savedKeys[i])
  }

  predicate NoneLost(saved: Checkpoint, keys: seq<Key>, upTo: nat)
    requires Shaped(saved) && upTo <= Slots
  {
    forall was :: 0 <= was < upTo && saved.keys[was] != 0 ==> saved.keys[was] in keys
  }

  predicate Holders(serials: seq<Key>, keys: seq<Key>)
    requires |serials| == |keys|
  {
    && (forall id :: 0 <= id < |keys| && keys[id] != 0 && serials[id] != 0 ==> keys[id] == serials[id])
    && (forall i, j :: 0 <= i < j < |keys| && Holder(serials, keys, i) != 0 ==>
         Holder(serials, keys, i) != Holder(serials, keys, j))
  }

  // ---------------------------------------------------------------------------
  // Counting
  // ---------------------------------------------------------------------------

  /** With every slot held and one identity besides, there are more identities than slots. */
  lemma FullMeansTooMany(saved: Checkpoint, serials: seq<Key>, keys: seq<Key>, missing: Key)
    requires Shaped(saved) && |serials| == |keys| == Slots && Holders(serials, keys)
    requires forall id :: 0 <= id < Slots ==> Holder(serials, keys, id) in Identities(serials, saved.keys)
    requires missing in Identities(serials, saved.keys)
    requires forall id :: 0 <= id < Slots ==> Holder(serials, keys, id) != missing
    ensures |Identities(serials, saved.keys)| > Slots
  {
    var held := seq(Slots, id requires 0 <= id < Slots => Holder(serials, keys, id));
    assert forall id :: 0 <= id < Slots ==> held[id] == Holder(serials, keys, id);
    assert 0 !in Identities(serials, saved.keys);
    AllDifferent(held);
    assert missing !in Elements(held);
    assert |Elements(held) + {missing}| == Slots + 1;
    SmallerSet(Elements(held) + {missing}, Identities(serials, saved.keys));
  }

  // ---------------------------------------------------------------------------
  // The two passes
  // ---------------------------------------------------------------------------

  method MatchLive(c: Curves, saved: Checkpoint, serials: seq<Key>)
    returns (ok: bool, recovered: seq<Frame>, keys: seq<Key>, used: seq<bool>)
    requires c.Lawful() && Shaped(saved) && |serials| == Slots
    ensures |recovered| == |keys| == |used| == Slots
    ensures ok ==> LiveRestored(c, saved, serials, recovered, keys)
    ensures forall id :: 0 <= id < Slots && serials[id] == 0 ==> keys[id] == 0 && recovered[id] == Still
    ensures forall k :: 0 <= k < Slots && used[k] ==> saved.keys[k] != 0 && saved.keys[k] in keys
    ensures ok ==> forall id :: 0 <= id < Slots && serials[id] != 0 && First(saved.keys, serials[id]) < Slots ==>
                     used[First(saved.keys, serials[id])]
    ensures !ok ==> exists k :: 0 <= k < Slots && saved.keys[k] != 0 && !ValidFrame(saved.frames[k])
  {
    hide ValidFrame, UnitFrame, First;
    recovered := seq(Slots, _ => Still);
    keys := seq(Slots, _ => 0);
    used := seq(Slots, _ => false);
    for id := 0 to Slots
      invariant |recovered| == |keys| == |used| == Slots
      invariant forall i :: 0 <= i < id && serials[i] != 0 ==> OwnRestored(c, saved, serials[i], recovered[i], keys[i])
      invariant forall i :: 0 <= i < Slots && (serials[i] == 0 || id <= i) ==> keys[i] == 0 && recovered[i] == Still
      invariant forall k :: 0 <= k < Slots && used[k] ==> saved.keys[k] != 0 && saved.keys[k] in keys
      invariant forall i :: 0 <= i < id && serials[i] != 0 && First(saved.keys, serials[i]) < Slots ==>
                  used[First(saved.keys, serials[i])]
    {
      if serials[id] != 0 {
        var was := FindKey(saved.keys, serials[id]);
        if was < Slots {
          if !ValidFrame(saved.frames[was]) {
            return false, recovered, keys, used;
          }
          PlaceKeepsMembers(keys, id, serials[id]);
          used := used[was := true];
          keys := keys[id := serials[id]];
          recovered := recovered[id := UnitFrame(c, saved.frames[was])];
        }
      }
    }
    ok := true;
  }

  lemma PlaceKeepsMembers(keys: seq<Key>, id: nat, key: Key)
    requires id < |keys| && keys[id] == 0
    ensures key in keys[id := key]
    ensures forall k :: k in keys && k != 0 ==> k in keys[id := key]
  {
    assert keys[id := key][id] == key;
    forall k | k in keys && k != 0 ensures k in keys[id := key] {
      var i :| 0 <= i < |keys| && keys[i] == k;
      assert keys[id := key][i] == k;
    }
  }

  method FindKey(keys: seq<Key>, key: Key) returns (i: nat)
    ensures i == First(keys, key)
  {
    i := 0;
    while i < |keys|
      invariant i <= |keys| && First(keys, key) == i + First(keys[i..], key)
    {
      if keys[i] == key {
        break;
      }
      i := i + 1;
    }
  }

  method FreeSlot(serials: seq<Key>, keys: seq<Key>) returns (id: nat)
    requires |serials| == |keys|
    ensures id <= |keys| && (id < |keys| ==> Holder(serials, keys, id) == 0)
    ensures id == |keys| ==> forall i :: 0 <= i < |keys| ==> Holder(serials, keys, i) != 0
  {
    id := 0;
    while id < |keys|
      invariant id <= |keys| && forall i :: 0 <= i < id ==> Holder(serials, keys, i) != 0
    {
      if serials[id] == 0 && keys[id] == 0 {
        break;
      }
      id := id + 1;
    }
  }

  /** The parked corrections so far: each a saved one from before `was` that no live device used. */
  predicate Parked(saved: Checkpoint, serials: seq<Key>, keys: seq<Key>, used: seq<bool>, was: nat)
    requires Shaped(saved) && |serials| == |keys| == |used| == Slots && was <= Slots
  {
    forall id :: 0 <= id < Slots && serials[id] == 0 && keys[id] != 0 ==> ParkedBefore(saved, used, keys[id], was)
  }

  predicate ParkedBefore(saved: Checkpoint, used: seq<bool>, key: Key, was: nat)
    requires Shaped(saved) && |used| == Slots && was <= Slots
  {
    exists k :: 0 <= k < was && saved.keys[k] == key && !used[k]
  }

  predicate UsedByLive(saved: Checkpoint, serials: seq<Key>, used: seq<bool>)
    requires Shaped(saved) && |serials| == |used| == Slots
  {
    forall id :: 0 <= id < Slots && serials[id] != 0 && First(saved.keys, serials[id]) < Slots ==>
      used[First(saved.keys, serials[id])]
  }

  /** A correction about to be parked has no slot yet. */
  lemma NotHeldYet(saved: Checkpoint, serials: seq<Key>, keys: seq<Key>, used: seq<bool>, was: nat, id: nat)
    requires Shaped(saved) && |serials| == |keys| == |used| == Slots && was < Slots && id < Slots
    requires Distinct(saved.keys) && saved.keys[was] != 0 && !used[was]
    requires Parked(saved, serials, keys, used, was) && UsedByLive(saved, serials, used)
    ensures Holder(serials, keys, id) != saved.keys[was]
  {
    assert First(saved.keys, saved.keys[was]) == was;
    if serials[id] == 0 && keys[id] != 0 {
      assert ParkedBefore(saved, used, keys[id], was);
      var k :| 0 <= k < was && saved.keys[k] == keys[id] && !used[k];
      assert saved.keys[k] == 0 || saved.keys[k] != saved.keys[was];
    }
  }

  lemma HoldersAreIdentities(saved: Checkpoint, serials: seq<Key>, keys: seq<Key>, used: seq<bool>, was: nat, id: nat)
    requires Shaped(saved) && |serials| == |keys| == |used| == Slots && was <= Slots && id < Slots
    requires Parked(saved, serials, keys, used, was) && Holder(serials, keys, id) != 0
    ensures Holder(serials, keys, id) in Identities(serials, saved.keys)
  {
    if serials[id] == 0 {
      assert ParkedBefore(saved, used, keys[id], was);
    }
  }

  /** Parked corrections are lost only when live and saved identities together do not fit. */
  lemma NoRoomMeansTooMany(saved: Checkpoint, serials: seq<Key>, keys: seq<Key>, used: seq<bool>, was: nat)
    requires Shaped(saved) && |serials| == |keys| == |used| == Slots && was < Slots
    requires Distinct(saved.keys) && saved.keys[was] != 0 && !used[was] && Holders(serials, keys)
    requires Parked(saved, serials, keys, used, was) && UsedByLive(saved, serials, used)
    requires forall i :: 0 <= i < Slots ==> Holder(serials, keys, i) != 0
    ensures |Identities(serials, saved.keys)| > Slots
  {
    forall id | 0 <= id < Slots
      ensures Holder(serials, keys, id) in Identities(serials, saved.keys)
      ensures Holder(serials, keys, id) != saved.keys[was]
    {
      HoldersAreIdentities(saved, serials, keys, used, was, id);
      NotHeldYet(saved, serials, keys, used, was, id);
    }
    FullMeansTooMany(saved, serials, keys, saved.keys[was]);
  }

  lemma PlacingKeepsHolders(serials: seq<Key>, keys: seq<Key>, id: nat, key: Key)
    requires |serials| == |keys| == Slots && id < Slots && Holders(serials, keys) && Holder(serials, keys, id) == 0
    requires forall i :: 0 <= i < Slots ==> Holder(serials, keys, i) != key
    ensures Holders(serials, keys[id := key])
  {
    var after := keys[id := key];
    forall i, j | 0 <= i < j < Slots && Holder(serials, after, i) != 0
      ensures Holder(serials, after, i) != Holder(serials, after, j)
    {
      assert i != id ==> Holder(serials, after, i) == Holder(serials, keys, i);
      assert j != id ==> Holder(serials, after, j) == Holder(serials, keys, j);
    }
  }

  lemma PlacingParks(saved: Checkpoint, serials: seq<Key>, keys: seq<Key>, used: seq<bool>, was: nat, id: nat)
    requires Shaped(saved) && |serials| == |keys| == |used| == Slots && was < Slots && id < Slots
    requires Parked(saved, serials, keys, used, was) && !used[was]
    ensures Parked(saved, serials, keys[id := saved.keys[was]], used, was + 1)
  {
    var after := keys[id := saved.keys[was]];
    forall i | 0 <= i < Slots && serials[i] == 0 && after[i] != 0 ensures ParkedBefore(saved, used, after[i], was + 1) {
      if i == id {
        assert saved.keys[was] == after[i];
      } else {
        assert ParkedBefore(saved, used, keys[i], was);
      }
    }
  }

  /** No slot is left for another correction. */
  predicate Full(serials: seq<Key>, keys: seq<Key>)
    requires |serials| == |keys| == Slots
  {
    forall id :: 0 <= id < Slots ==> Holder(serials, keys, id) != 0
  }

  /** A correction whose device is away stays in its own slot, unless one from an earlier slot had to move there. */
  predicate StaysHome(saved: Checkpoint, serials: seq<Key>, keys: seq<Key>, k: nat)
    requires Shaped(saved) && |serials| == |keys| == Slots && k < Slots
  {
    serials[k] == 0 && saved.keys[k] != 0 && saved.keys[k] !in serials ==>
      && keys[k] != 0
      && (keys[k] == saved.keys[k] || exists j :: 0 <= j < k && saved.keys[j] == keys[k])
  }

  /** Both passes' promises, once the keys are all placed. */
  ghost predicate Recovered(c: Curves, saved: Checkpoint, serials: seq<Key>, frames: seq<Frame>, keys: seq<Key>) {
    && c.Lawful() && Shaped(saved) && |serials| == |frames| == |keys| == Slots
    && LiveRestored(c, saved, serials, frames, keys) && OnlySaved(c, saved, serials, frames, keys)
    && (NoneLost(saved, keys, Slots) || Full(serials, keys))
    && (forall k :: 0 <= k < Slots ==> StaysHome(saved, serials, keys, k))
    && (Distinct(serials) && Distinct(saved.keys) ==>
         && Holders(serials, keys)
         && (|Identities(serials, saved.keys)| <= Slots ==> NoneLost(saved, keys, Slots)))
  }

  method Park(c: Curves, saved: Checkpoint, serials: seq<Key>, live: seq<Frame>, liveKeys: seq<Key>, used: seq<bool>)
    returns (ok: bool, recovered: seq<Frame>, keys: seq<Key>)
    requires c.Lawful() && Shaped(saved) && |serials| == |live| == |liveKeys| == |used| == Slots
    requires LiveRestored(c, saved, serials, live, liveKeys) && UsedByLive(saved, serials, used)
    requires forall id :: 0 <= id < Slots && serials[id] == 0 ==> liveKeys[id] == 0 && live[id] == Still
    requires forall k :: 0 <= k < Slots && used[k] ==> saved.keys[k] != 0 && saved.keys[k] in liveKeys
    ensures |recovered| == |keys| == Slots && (ok ==> Recovered(c, saved, serials, recovered, keys))
    ensures !ok ==> exists k :: 0 <= k < Slots && saved.keys[k] != 0 && !ValidFrame(saved.frames[k])
  {
    hide ValidFrame, UnitFrame, First, OwnRestored, Identities, UsedByLive, Parked, StaysHome;
    recovered, keys := live, liveKeys;
    ghost var distinct := Distinct(serials) && Distinct(saved.keys);
    ghost var fits := |Identities(serials, saved.keys)| <= Slots;
    StartsParked(saved, serials, keys, used);
    UsedIsLive(c, saved, serials, live, liveKeys, used);
    if distinct {
      LiveHolders(c, saved, serials, live, liveKeys);
    }
    for was := 0 to Slots
      invariant |recovered| == |keys| == Slots
      invariant forall id :: 0 <= id < Slots && serials[id] != 0 ==> keys[id] == liveKeys[id] && recovered[id] == live[id]
      invariant forall id :: 0 <= id < Slots && serials[id] == 0 ==> IsSaved(c, saved, recovered[id], keys[id])
      invariant forall k :: k in liveKeys && k != 0 ==> k in keys
      invariant Parked(saved, serials, keys, used, was)
      invariant NoneLost(saved, keys, was) || Full(serials, keys)
      invariant forall k :: 0 <= k < was ==> StaysHome(saved, serials, keys, k)
      invariant distinct ==> Holders(serials, keys)
      invariant distinct && fits ==> NoneLost(saved, keys, was)
    {
      ParkedGrows(saved, serials, keys, used, was);
      TakenStaysHome(saved, serials, keys, used, was);
      if used[was] || saved.keys[was] == 0 {
        continue;
      }
      var id := was;
      if serials[id] != 0 || keys[id] != 0 {
        id := FreeSlot(serials, keys);
        if id == Slots {
          if distinct {
            NoRoomMeansTooMany(saved, serials, keys, used, was);
          }
          continue;
        }
      }
      if !ValidFrame(saved.frames[was]) {
        return false, recovered, keys;
      }
      PlaceKeepsMembers(keys, id, saved.keys[was]);
      PlacingParks(saved, serials, keys, used, was, id);
      PlacingStaysHome(saved, serials, keys, was, id, keys[id := saved.keys[was]]);
      PlacingLosesNone(saved, serials, keys, was, id);
      if distinct {
        forall i | 0 <= i < Slots ensures Holder(serials, keys, i) != saved.keys[was] {
          NotHeldYet(saved, serials, keys, used, was, i);
        }
        PlacingKeepsHolders(serials, keys, id, saved.keys[was]);
      }
      recovered := recovered[id := UnitFrame(c, saved.frames[was])];
      keys := keys[id := saved.keys[was]];
    }
    ok := true;
  }

  lemma UsedIsLive(c: Curves, saved: Checkpoint, serials: seq<Key>, live: seq<Frame>, liveKeys: seq<Key>, used: seq<bool>)
    requires c.Lawful() && Shaped(saved) && |serials| == |live| == |liveKeys| == |used| == Slots
    requires LiveRestored(c, saved, serials, live, liveKeys)
    requires forall id :: 0 <= id < Slots && serials[id] == 0 ==> liveKeys[id] == 0
    requires forall k :: 0 <= k < Slots && used[k] ==> saved.keys[k] != 0 && saved.keys[k] in liveKeys
    ensures forall k :: 0 <= k < Slots && used[k] ==> saved.keys[k] in serials
  {
    hide UnitFrame, First;
    forall k | 0 <= k < Slots && used[k] ensures saved.keys[k] in serials {
      var id :| 0 <= id < Slots && liveKeys[id] == saved.keys[k];
      assert OwnRestored(c, saved, serials[id], live[id], liveKeys[id]);
    }
  }

  /** A slot taken when its own correction's turn comes was taken by an earlier one. */
  lemma TakenStaysHome(saved: Checkpoint, serials: seq<Key>, keys: seq<Key>, used: seq<bool>, was: nat)
    requires Shaped(saved) && |serials| == |keys| == |used| == Slots && was < Slots
    requires Parked(saved, serials, keys, used, was)
    ensures serials[was] != 0 || keys[was] != 0 || saved.keys[was] == 0 || saved.keys[was] in serials ==>
              StaysHome(saved, serials, keys, was)
  {
    if serials[was] == 0 && keys[was] != 0 {
      assert ParkedBefore(saved, used, keys[was], was);
    }
  }

  lemma PlacingStaysHome(saved: Checkpoint, serials: seq<Key>, keys: seq<Key>, was: nat, id: nat, after: seq<Key>)
    requires Shaped(saved) && |serials| == |keys| == Slots && was < Slots && id < Slots
    requires after == keys[id := saved.keys[was]]
    requires forall k :: 0 <= k < was ==> StaysHome(saved, serials, keys, k)
    requires saved.keys[was] != 0 && Holder(serials, keys, id) == 0 && (id == was || StaysHome(saved, serials, keys, was))
    ensures forall k :: 0 <= k <= was ==> StaysHome(saved, serials, after, k)
  {
    forall k | 0 <= k <= was ensures StaysHome(saved, serials, after, k) {
      assert k != was ==> StaysHome(saved, serials, keys, k);
    }
  }

  lemma PlacingLosesNone(saved: Checkpoint, serials: seq<Key>, keys: seq<Key>, was: nat, id: nat)
    requires Shaped(saved) && |serials| == |keys| == Slots && was < Slots && id < Slots
    requires Holder(serials, keys, id) == 0 && saved.keys[was] != 0 && (NoneLost(saved, keys, was) || Full(serials, keys))
    ensures NoneLost(saved, keys[id := saved.keys[was]], was + 1)
  {
    PlaceKeepsMembers(keys, id, saved.keys[was]);
  }

  lemma StartsParked(saved: Checkpoint, serials: seq<Key>, keys: seq<Key>, used: seq<bool>)
    requires Shaped(saved) && |serials| == |keys| == |used| == Slots
    requires forall id :: 0 <= id < Slots && serials[id] == 0 ==> keys[id] == 0
    ensures Parked(saved, serials, keys, used, 0)
  {
  }

  lemma ParkedGrows(saved: Checkpoint, serials: seq<Key>, keys: seq<Key>, used: seq<bool>, was: nat)
    requires Shaped(saved) && |serials| == |keys| == |used| == Slots && was < Slots
    requires Parked(saved, serials, keys, used, was)
    ensures Parked(saved, serials, keys, used, was + 1)
  {
    forall id | 0 <= id < Slots && serials[id] == 0 && keys[id] != 0 ensures ParkedBefore(saved, used, keys[id], was + 1) {
      assert ParkedBefore(saved, used, keys[id], was);
    }
  }

  lemma LiveHolders(c: Curves, saved: Checkpoint, serials: seq<Key>, frames: seq<Frame>, keys: seq<Key>)
    requires c.Lawful() && Shaped(saved) && |serials| == |frames| == |keys| == Slots
    requires LiveRestored(c, saved, serials, frames, keys) && Distinct(serials)
    requires forall id :: 0 <= id < Slots && serials[id] == 0 ==> keys[id] == 0
    ensures Holders(serials, keys)
  {
    forall id | 0 <= id < Slots && keys[id] != 0 && serials[id] != 0 ensures keys[id] == serials[id] {
      assert OwnRestored(c, saved, serials[id], frames[id], keys[id]);
    }
  }

  /**
   Recovery from the driver's checkpoint. On success every live device with a saved correction has
   it in its own slot and everything else in the outputs is a saved correction parked where no live
   device is, at home when it can be; identities stay distinct, and none is lost while a slot is free
   or while they all fit. On failure, which needs
   a checkpoint that is not ours or a correction that is not valid, the outputs are as they were.
   */
  method RecoverTrackerFrames(c: Curves, saved: Checkpoint, session: nat, profile: nat, serials: seq<Key>,
                              out: array<Frame>, restoredKeys: array<Key>) returns (ok: bool)
    requires c.Lawful() && Shaped(saved) && |serials| == Slots && out.Length == restoredKeys.Length == Slots
    modifies out, restoredKeys
    ensures ok ==> Belongs(saved, session, profile) && Recovered(c, saved, serials, out[..], restoredKeys[..])
    ensures !ok ==> out[..] == old(out[..]) && restoredKeys[..] == old(restoredKeys[..])
    ensures !ok && Belongs(saved, session, profile) ==>
              exists k :: 0 <= k < Slots && saved.keys[k] != 0 && !ValidFrame(saved.frames[k])
  {
    hide Recovered, LiveRestored, ValidFrame;
    if !Belongs(saved, session, profile) {
      return false;
    }
    var recovered, keys, used;
    ok, recovered, keys, used := MatchLive(c, saved, serials);
    if !ok {
      return;
    }
    ok, recovered, keys := Park(c, saved, serials, recovered, keys, used);
    if !ok {
      return;
    }
    ghost var frames, placed := recovered, keys;
    for i := 0 to Slots
      modifies out, restoredKeys
      invariant out[..i] == recovered[..i] && restoredKeys[..i] == keys[..i]
    {
      out[i], restoredKeys[i] := recovered[i], keys[i];
    }
    assert out[..] == frames && restoredKeys[..] == placed;
  }

  // ---------------------------------------------------------------------------
  // What that means
  // ---------------------------------------------------------------------------

  /** While all identities fit, recovery succeeds only if every saved correction is valid: none is passed over. */
  lemma RecoveredMeansAllValid(c: Curves, saved: Checkpoint, serials: seq<Key>, frames: seq<Frame>, keys: seq<Key>)
    requires Recovered(c, saved, serials, frames, keys) && Distinct(serials) && Distinct(saved.keys)
    requires |Identities(serials, saved.keys)| <= Slots
    ensures forall k :: 0 <= k < Slots && saved.keys[k] != 0 ==> ValidFrame(saved.frames[k])
  {
    hide Identities, Holders, UnitFrame, ValidFrame;
    forall k | 0 <= k < Slots && saved.keys[k] != 0 ensures ValidFrame(saved.frames[k]) {
      assert saved.keys[k] in keys;
      var id :| 0 <= id < Slots && keys[id] == saved.keys[k];
      if serials[id] != 0 {
        assert OwnRestored(c, saved, serials[id], frames[id], keys[id]);
      } else {
        assert IsSaved(c, saved, frames[id], keys[id]);
      }
    }
  }

  /** No identity is in two slots, and no live device's slot holds another's correction. */
  lemma KeysStayDistinct(c: Curves, saved: Checkpoint, serials: seq<Key>, frames: seq<Frame>, keys: seq<Key>)
    requires Recovered(c, saved, serials, frames, keys) && Distinct(serials) && Distinct(saved.keys)
    ensures Distinct(keys)
    ensures forall id, other :: 0 <= id < Slots && 0 <= other < Slots && id != other && keys[id] != 0 ==>
              keys[id] != serials[other]
  {
    forall id, other | 0 <= id < Slots && 0 <= other < Slots && id != other && keys[id] != 0
      ensures keys[id] != keys[other] && keys[id] != serials[other]
    {
      var a, b := if id < other then id else other, if id < other then other else id;
      assert Holder(serials, keys, id) == keys[id];
      assert Holder(serials, keys, a) != Holder(serials, keys, b) by {
        if Holder(serials, keys, a) == 0 {
          assert a == other;
        }
      }
    }
  }
}
