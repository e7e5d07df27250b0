/** Profile tuples as values, and the first-match lookup over their keys. */
module Profiles {
  import opened Values

  /** The spawner classes a profile can name (the `Type(Spawner)` slot of a profile tuple). */
  datatype SpawnerKind = LocalProcessSpawner | SystemUserSpawner

  /** The immutable part of a profile tuple: display name, unique key, spawner class. */
  datatype ProfileHeader = ProfileHeader(display: string, key: string, kind: SpawnerKind)

  function Keys(hs: seq<ProfileHeader>): seq<string>
  {
    seq(|hs|, i requires 0 <= i < |hs| => hs[i].key)
  }

  lemma KeysAppend(a: seq<ProfileHeader>, b: seq<ProfileHeader>)
    ensures Keys(a + b) == Keys(a) + Keys(b)
  {
    forall i | 0 <= i < |a| + |b| ensures Keys(a + b)[i] == (Keys(a) + Keys(b))[i] {
      if i >= |a| { assert (a + b)[i] == b[i - |a|]; }
    }
  }

  /** The index of the first key equal to `k`, as a loop that breaks on its first hit finds it. */
  function FirstMatch(keys: seq<string>, k: string): Option<nat>
  {
    if keys == [] then None
    else if keys[0] == k then Some(0)
    else
      match FirstMatch(keys[1..], k)
      case None => None
      case Some(i) => Some(i + 1)
  }

  /** `FirstMatch` finds nothing exactly when `k` is absent, and otherwise an index holding
      `k` with no earlier index holding it. */
  lemma {:induction false} FirstMatchIsFirst(keys: seq<string>, k: string)
    ensures FirstMatch(keys, k).None? <==> k !in keys
    ensures FirstMatch(keys, k).Some? ==>
      var i := FirstMatch(keys, k).value;
      i < |keys| && keys[i] == k && forall j :: 0 <= j < i ==> keys[j] != k
  {
    if keys != [] && keys[0] != k {
      FirstMatchIsFirst(keys[1..], k);
      assert k in keys <==> k in keys[1..] by {
        if k in keys {
          var j :| 0 <= j < |keys| && keys[j] == k;
          assert keys[1..][j - 1] == k;
        }
      }
    }
  }

  /** The first-match index is the one a scan stopping at its first hit reports. */
  lemma FirstMatchAt(keys: seq<string>, k: string, i: nat)
    requires i < |keys| && keys[i] == k
    requires forall j :: 0 <= j < i ==> keys[j] != k
    ensures FirstMatch(keys, k) == Some(i)
  {
    FirstMatchIsFirst(keys, k);
  }

  function Shifted(r: Option<nat>, offset: nat): Option<nat>
  {
    match r
    case None => None
    case Some(i) => Some(offset + i)
  }

  /** Earlier entries shadow later ones: a key present in `front` is found there,
      whatever follows it; otherwise the search falls through to `back`. */
  lemma FirstMatchShadows(front: seq<string>, back: seq<string>, k: string)
    ensures k in front ==> FirstMatch(front + back, k) == FirstMatch(front, k)
    ensures k !in front ==> FirstMatch(front + back, k) == Shifted(FirstMatch(back, k), |front|)
  {
    var all := front + back;
    FirstMatchIsFirst(all, k);
    FirstMatchIsFirst(front, k);
    FirstMatchIsFirst(back, k);
    if k in front {
      var i := FirstMatch(front, k).value;
      var r := FirstMatch(all, k).value;
      assert all[i] == k;
      assert r <= i;
      assert all[r] == front[r];
    } else {
      match FirstMatch(back, k)
      case None =>
        assert k !in all by {
          forall j | 0 <= j < |all| ensures all[j] != k {
            if j < |front| { assert all[j] == front[j]; } else { assert all[j] == back[j - |front|]; }
          }
        }
      case Some(i) =>
        assert all[|front| + i] == k;
        var r := FirstMatch(all, k).value;
        assert forall j :: 0 <= j < |front| ==> all[j] == front[j];
        assert back[r - |front|] == k;
    }
  }
}
