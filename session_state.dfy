/** The two selection strings as saved into, and restored from, the spawner's state. */
module SessionState {
  import opened Values

  /** The user's choice: a profile key and an image reference. */
  datatype Selection = Selection(profile: string, image: string)

  /** `get_state`: the base state extended with the selection. */
  function Persist(base: map<string, Value>, sel: Selection): (r: map<string, Value>)
    ensures r.Keys == base.Keys + {"profile", "dockerImage"}
    ensures r["profile"] == Text(sel.profile) && r["dockerImage"] == Text(sel.image)
    ensures forall k :: k in base && k != "profile" && k != "dockerImage" ==> r[k] == base[k]
  {
    base["profile" := Text(sel.profile)]["dockerImage" := Text(sel.image)]
  }

  /** The two selection entries, where present, hold strings (as `get_state` writes them). */
  predicate Restorable(state: map<string, Value>)
  {
    ("profile" in state ==> state["profile"].Text?) &&
    ("dockerImage" in state ==> state["dockerImage"].Text?)
  }

  /** `load_child_class`: both strings when both keys are present, otherwise both empty. */
  function Restore(state: map<string, Value>): (r: Selection)
    requires Restorable(state)
    ensures "profile" in state && "dockerImage" in state ==>
      Text(r.profile) == state["profile"] && Text(r.image) == state["dockerImage"]
    ensures "profile" !in state || "dockerImage" !in state ==> r == Selection("", "")
  {
    if "profile" in state && "dockerImage" in state
    then Selection(state["profile"].s, state["dockerImage"].s)
    else Selection("", "")
  }

  /** Saving then restoring gives back the same selection. */
  lemma PersistRestore(base: map<string, Value>, sel: Selection)
    ensures Restorable(Persist(base, sel))
    ensures Restore(Persist(base, sel)) == sel
  {
  }
}
