/** JSON documents and RFC 7396 merge patches: the in-place merge against the standard's definition. */
module MergePatch {
  import opened Prelude

  /** A parsed JSON value; member order carries no meaning. */
  datatype Json =
    | Null
    | Bool(flag: bool)
    | Num(number: real)
    | Str(text: string)
    | Arr(items: seq<Json>)
    | Obj(members: map<string, Json>)

  /** A document's members; a document that is not an object counts as having none. */
  function Members(v: Json): map<string, Json> {
    if v.Obj? then v.members else map[]
  }

  /** The member a patch works on; an absent one is null. */
  function At(v: Json, key: string): Json {
    if v.Obj? && key in v.members then v.members[key] else Null
  }

  /** Section 2 of RFC 7396: null removes, an object merges, anything else replaces. */
  function Merged(target: Json, patch: Json): Json
    decreases patch
  {
    if !patch.Obj? then patch
    else Obj(map key | key in Members(target).Keys + patch.members.Keys && Kept(patch, key) ::
               if key in patch.members then Merged(At(target, key), patch.members[key]) else At(target, key))
  }

  predicate Kept(patch: Json, key: string)
    requires patch.Obj?
  {
    key in patch.members ==> patch.members[key] != Null
  }

  /** The keys still to do are as they were, the others as they will be. */
  ghost predicate Progress(before: map<string, Json>, goal: map<string, Json>, todo: set<string>,
                           now: map<string, Json>)
  {
    && (forall key :: key in todo ==> Same(now, before, key))
    && (forall key :: key !in todo ==> Same(now, goal, key))
  }

  predicate Same(a: map<string, Json>, b: map<string, Json>, key: string) {
    if key in a then key in b && a[key] == b[key] else key !in b
  }

  lemma ProgressDone(before: map<string, Json>, goal: map<string, Json>, now: map<string, Json>)
    requires Progress(before, goal, {}, now)
    ensures now == goal
  {
    forall key
      ensures key in now <==> key in goal
      ensures key in now && key in goal ==> now[key] == goal[key]
    {
      assert Same(now, goal, key);
    }
  }

  lemma ProgressStart(target: Json, patch: Json)
    requires patch.Obj?
    ensures Progress(Members(target), Merged(target, patch).members, patch.members.Keys, Members(target))
  {
  }

  lemma ProgressStep(before: map<string, Json>, goal: map<string, Json>, todo: set<string>, now: map<string, Json>,
                     key: string, next: map<string, Json>)
    requires Progress(before, goal, todo, now) && key in todo
    requires Same(next, goal, key) && forall other :: other != key ==> Same(next, now, other)
    ensures Progress(before, goal, todo - {key}, next)
  {
    forall other | other in todo - {key}
      ensures Same(next, before, other)
    {
      assert Same(now, before, other) && Same(next, now, other);
    }
    forall other | other !in todo - {key}
      ensures Same(next, goal, other)
    {
      if other != key {
        assert Same(now, goal, other) && Same(next, now, other);
      }
    }
  }

  function Applied(now: map<string, Json>, key: string, value: Json): map<string, Json> {
    if value == Null then now - {key} else now[key := Merged(if key in now then now[key] else Null, value)]
  }

  lemma AppliedStep(target: Json, patch: Json, todo: set<string>, now: map<string, Json>, key: string)
    requires patch.Obj? && key in patch.members && key in todo
    requires Progress(Members(target), Merged(target, patch).members, todo, now)
    ensures var next := Applied(now, key, patch.members[key]);
            Progress(Members(target), Merged(target, patch).members, todo - {key}, next)
  {
    assert Same(now, Members(target), key);
    ProgressStep(Members(target), Merged(target, patch).members, todo, now, key, Applied(now, key, patch.members[key]));
  }

  /** One pass of the loop: remove the member, or merge into it. */
  method MergeMember(now: map<string, Json>, key: string, value: Json) returns (next: map<string, Json>)
    ensures next == Applied(now, key, value)
    decreases value, 1
  {
    if value.Null? {
      next := now - {key};
    } else {
      var slot := if key in now then now[key] else Null;
      var merged := Merge(slot, value);
      next := now[key := merged];
    }
  }

  /** `merge_patch`: visits the patch's keys in any order, editing the target as it goes. */
  method Merge(target: Json, patch: Json) returns (result: Json)
    ensures result == Merged(target, patch)
    decreases patch, 0
  {
    if !patch.Obj? {
      return patch;
    }
    var now := Members(target);
    var todo := patch.members.Keys;
    ghost var goal := Merged(target, patch).members;
    ProgressStart(target, patch);
    while todo != {}
      invariant todo <= patch.members.Keys
      invariant Progress(Members(target), goal, todo, now)
      decreases |todo|
    {
      var key :| key in todo;
      AppliedStep(target, patch, todo, now, key);
      now := MergeMember(now, key, patch.members[key]);
      todo := todo - {key};
    }
    ProgressDone(Members(target), goal, now);
    return Obj(now);
  }

  /** Applying a patch twice is applying it once. */
  lemma {:induction false} MergeIdempotent(target: Json, patch: Json)
    ensures Merged(Merged(target, patch), patch) == Merged(target, patch)
    decreases patch
  {
    if patch.Obj? {
      var once := Merged(target, patch);
      forall key | key in patch.members && Kept(patch, key)
        ensures Merged(At(once, key), patch.members[key]) == At(once, key)
      {
        MergeIdempotent(At(target, key), patch.members[key]);
      }
      assert Merged(once, patch).members == once.members;
    }
  }

  /** No object member, however deep in objects, is null. */
  predicate NullFree(v: Json)
    decreases v
  {
    v.Obj? ==> forall key | key in v.members :: v.members[key] != Null && NullFree(v.members[key])
  }

  /** A merge never introduces a null member. */
  lemma {:induction false} MergeKeepsNullFree(target: Json, patch: Json)
    requires NullFree(target)
    ensures NullFree(Merged(target, patch))
    ensures patch != Null ==> Merged(target, patch) != Null
    decreases patch
  {
    if patch.Obj? {
      var result := Merged(target, patch);
      forall key | key in result.members
        ensures result.members[key] != Null && NullFree(result.members[key])
      {
        if key in patch.members {
          MergeKeepsNullFree(At(target, key), patch.members[key]);
        }
      }
    }
  }

  /** Every null member the result has was there before. */
  predicate Reachable(target: Json, result: Json)
    decreases result
  {
    result.Obj? ==> forall key | key in result.members ::
      if result.members[key] == Null then key in Members(target) && At(target, key) == Null
      else Reachable(At(target, key), result.members[key])
  }

  /** A patch from one document to another. */
  function Diff(target: Json, result: Json): Json
    decreases result
  {
    if !result.Obj? then result
    else Obj(map key | key in Members(target).Keys + result.members.Keys && Differs(target, result, key) ::
               if key in result.members then Diff(At(target, key), result.members[key]) else Null)
  }

  predicate Differs(target: Json, result: Json, key: string)
    requires result.Obj?
  {
    !(key in Members(target) && key in result.members && Members(target)[key] == result.members[key])
  }

  lemma {:induction false} DiffMerges(target: Json, result: Json)
    requires Reachable(target, result)
    ensures Merged(target, Diff(target, result)) == result
    decreases result
  {
    if result.Obj? {
      var patch := Diff(target, result);
      forall key | key in result.members && Differs(target, result, key)
        ensures Kept(patch, key)
        ensures Merged(At(target, key), patch.members[key]) == result.members[key]
      {
        DiffMerges(At(target, key), result.members[key]);
      }
      assert Merged(target, patch).members.Keys == result.members.Keys;
      assert Merged(target, patch).members == result.members;
    }
  }

  lemma {:induction false} MergedIsReachable(target: Json, patch: Json)
    ensures Reachable(target, Merged(target, patch))
    decreases patch
  {
    if patch.Obj? {
      var result := Merged(target, patch);
      forall key | key in result.members && result.members[key] != Null
        ensures Reachable(At(target, key), result.members[key])
      {
        if key in patch.members {
          MergedIsReachable(At(target, key), patch.members[key]);
        } else {
          ReachableSelf(At(target, key));
        }
      }
      forall key | key in result.members && result.members[key] == Null
        ensures key in Members(target) && At(target, key) == Null
      {
        if key in patch.members {
          NullOnlyFromNull(At(target, key), patch.members[key]);
        }
      }
    }
  }

  lemma NullOnlyFromNull(target: Json, patch: Json)
    ensures Merged(target, patch) == Null <==> patch == Null
  {
  }

  lemma {:induction false} ReachableSelf(v: Json)
    ensures Reachable(v, v)
    decreases v
  {
    if v.Obj? {
      forall key | key in v.members && v.members[key] != Null
        ensures Reachable(v.members[key], v.members[key])
      {
        ReachableSelf(v.members[key]);
      }
    }
  }

  /** Exactly the reachable documents are results of some patch. */
  lemma SomePatchReaches(target: Json, result: Json)
    ensures Reachable(target, result) <==> exists patch: Json :: Merged(target, patch) == result
  {
    if Reachable(target, result) {
      DiffMerges(target, result);
    }
    forall patch: Json | Merged(target, patch) == result
      ensures Reachable(target, result)
    {
      MergedIsReachable(target, patch);
    }
  }

  lemma {:induction false} NullFreeIsReachable(target: Json, result: Json)
    requires NullFree(result)
    ensures Reachable(target, result)
    decreases result
  {
    if result.Obj? {
      forall key | key in result.members
        ensures Reachable(At(target, key), result.members[key])
      {
        NullFreeIsReachable(At(target, key), result.members[key]);
      }
    }
  }

  /** Any document becomes any null-free one by the difference patch. */
  lemma AnyNullFreeDocument(target: Json, result: Json)
    requires NullFree(result)
    ensures Merged(target, Diff(target, result)) == result
  {
    NullFreeIsReachable(target, result);
    DiffMerges(target, result);
  }
}
