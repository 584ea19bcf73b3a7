/** What may be published: the counting validator, and why a merge of valid documents stays valid. */
module Validation {
  import opened Prelude
  import opened Text
  import opened MergePatch

  const MAX_DEPTH: nat := 16
  const MAX_NODES: nat := 10000
  const MAX_VIEW_BYTES: nat := 64 * 1024
  const MAX_ARTIFACT_BYTES: nat := 512 * 1024

  const AST_KINDS: seq<string> := [
    "Comp", "Str", "Num", "Bool", "Null", "Arr", "Obj", "Ref", "Ph", "StateRef", "RuntimeRef",
    "BinOp", "UnaryOp", "Ternary", "Member", "Index", "Assign"]

  const PROTOTYPE_KEYS: seq<string> := ["__proto__", "prototype", "constructor"]

  /** What counts as a reactive marker. */
  predicate Truthy(v: Json) {
    match v
    case Null => false
    case Bool(flag) => flag
    case Num(number) => number != 0.0
    case Str(text) => text != ""
    case _ => true
  }

  /** An object a renderer would take for one of its own. */
  predicate Reserved(members: map<string, Json>) {
    || ("k" in members && members["k"].Str? && members["k"].text in AST_KINDS)
    || ("type" in members && members["type"] == Str("element"))
    || ("__reactive" in members && Truthy(members["__reactive"]))
    || ("steps" in members && members["steps"].Arr?)
  }

  predicate KeyOK(key: string) {
    key !in PROTOTYPE_KEYS && Utf8Len(key) <= 512 && !HasControl(key)
  }

  /** Every depth, key and reserved-object rule, for a value at a depth. */
  predicate Shapely(v: Json, depth: nat)
    decreases v
  {
    && depth <= MAX_DEPTH
    && (v.Arr? ==> forall i :: 0 <= i < |v.items| ==> Shapely(v.items[i], depth + 1))
    && (v.Obj? ==> !Reserved(v.members) &&
                   forall key | key in v.members :: KeyOK(key) && Shapely(v.members[key], depth + 1))
  }

  /** How many values a document holds, itself included. */
  ghost function Count(v: Json): (n: nat)
    ensures n > 0
    decreases v
  {
    match v
    case Arr(items) => 1 + CountItems(v, |items|)
    case Obj(members) => 1 + CountKeys(v, members.Keys)
    case _ => 1
  }

  ghost function CountItems(v: Json, n: nat): nat
    requires v.Arr? && n <= |v.items|
    decreases v, n
  {
    if n == 0 then 0 else CountItems(v, n - 1) + Count(v.items[n - 1])
  }

  ghost function CountKeys(v: Json, keys: set<string>): nat
    requires v.Obj? && keys <= v.members.Keys
    decreases v, |keys|
  {
    if keys == {} then 0
    else
      var key :| key in keys;
      Count(v.members[key]) + CountKeys(v, keys - {key})
  }

  /** The members may be counted in any order. */
  lemma {:induction false} CountPick(v: Json, keys: set<string>, key: string)
    requires v.Obj? && keys <= v.members.Keys && key in keys
    ensures CountKeys(v, keys) == Count(v.members[key]) + CountKeys(v, keys - {key})
    decreases |keys|
  {
    var first :| first in keys && CountKeys(v, keys) == Count(v.members[first]) + CountKeys(v, keys - {first});
    if first != key {
      CountPick(v, keys - {first}, key);
      CountPick(v, keys - {key}, first);
      assert keys - {first} - {key} == keys - {key} - {first};
    }
  }

  lemma {:induction false} CountSubset(v: Json, fewer: set<string>, keys: set<string>)
    requires v.Obj? && fewer <= keys <= v.members.Keys
    ensures CountKeys(v, fewer) <= CountKeys(v, keys)
    decreases |keys|
  {
    if keys - fewer == {} {
      assert fewer == keys;
    } else {
      var key :| key in keys - fewer;
      CountPick(v, keys, key);
      CountSubset(v, fewer, keys - {key});
    }
  }

  lemma {:induction false} ItemsWithin(v: Json, n: nat)
    requires v.Arr? && n <= |v.items|
    ensures CountItems(v, n) <= CountItems(v, |v.items|)
    decreases |v.items| - n
  {
    if n < |v.items| {
      ItemsWithin(v, n + 1);
    }
  }

  /** `visit`: count as it goes and stop at the first breach, members in any order. */
  method Visit(v: Json, depth: nat, nodes: nat) returns (ok: bool, total: nat)
    requires nodes <= MAX_NODES
    ensures ok <==> Shapely(v, depth) && nodes + Count(v) <= MAX_NODES
    ensures ok ==> total == nodes + Count(v)
    decreases v, 1
  {
    total := nodes + 1;
    if depth > MAX_DEPTH || total > MAX_NODES {
      return false, total;
    }
    match v
    case Obj(members) =>
      if Reserved(members) {
        return false, total;
      }
      ok, total := VisitMembers(v, depth, total);
    case Arr(items) =>
      ok, total := VisitItems(v, depth, total);
    case _ =>
      return true, total;
  }

  method VisitItems(v: Json, depth: nat, nodes: nat) returns (ok: bool, total: nat)
    requires v.Arr? && nodes <= MAX_NODES
    ensures ok <==> (forall i :: 0 <= i < |v.items| ==> Shapely(v.items[i], depth + 1))
                    && nodes + CountItems(v, |v.items|) <= MAX_NODES
    ensures ok ==> total == nodes + CountItems(v, |v.items|)
    decreases v, 0
  {
    total := nodes;
    var i := 0;
    while i < |v.items|
      invariant 0 <= i <= |v.items|
      invariant total == nodes + CountItems(v, i) <= MAX_NODES
      invariant forall j :: 0 <= j < i ==> Shapely(v.items[j], depth + 1)
    {
      ItemsWithin(v, i + 1);
      ok, total := Visit(v.items[i], depth + 1, total);
      if !ok {
        return;
      }
      i := i + 1;
    }
    return true, total;
  }

  method VisitMembers(v: Json, depth: nat, nodes: nat) returns (ok: bool, total: nat)
    requires v.Obj? && nodes <= MAX_NODES
    ensures ok <==> (forall key | key in v.members :: KeyOK(key) && Shapely(v.members[key], depth + 1))
                    && nodes + CountKeys(v, v.members.Keys) <= MAX_NODES
    ensures ok ==> total == nodes + CountKeys(v, v.members.Keys)
    decreases v, 0
  {
    total := nodes;
    var todo := v.members.Keys;
    while todo != {}
      invariant todo <= v.members.Keys && total <= MAX_NODES
      invariant total + CountKeys(v, todo) == nodes + CountKeys(v, v.members.Keys)
      invariant forall key | key in v.members && key !in todo :: KeyOK(key) && Shapely(v.members[key], depth + 1)
      decreases |todo|
    {
      var key :| key in todo;
      CountPick(v, todo, key);
      if !KeyOK(key) {
        return false, total;
      }
      ok, total := Visit(v.members[key], depth + 1, total);
      if !ok {
        return;
      }
      todo := todo - {key};
    }
    return true, total;
  }

  /** What a value inside `data` or a patch must satisfy; `size` is its serialized length. */
  ghost predicate ValidData(size: Json -> nat, data: Json) {
    data.Obj? && Shapely(data, 0) && Count(data) <= MAX_NODES && size(data) <= MAX_ARTIFACT_BYTES
  }

  /** `validate_data`. */
  method ValidateData(size: Json -> nat, data: Json) returns (ok: bool)
    ensures ok <==> ValidData(size, data)
  {
    if !data.Obj? {
      return false;
    }
    var visited, _ := Visit(data, 0, 0);
    return visited && size(data) <= MAX_ARTIFACT_BYTES;
  }

  predicate TitleOK(title: string) {
    !IsBlank(title) && |title| <= 200 && !HasControl(title)
  }

  predicate ViewOK(view: string) {
    !IsBlank(view) && Utf8Len(view) <= MAX_VIEW_BYTES
  }

  ghost predicate ValidDocument(size: Json -> nat, title: string, view: string, data: Json) {
    && TitleOK(title) && ViewOK(view) && ValidData(size, data)
    && Utf8Len(title) + Utf8Len(view) + size(data) <= MAX_ARTIFACT_BYTES
  }

  lemma ShapelyNull(depth: nat)
    requires depth <= MAX_DEPTH
    ensures Shapely(Null, depth)
  {
  }

  /** A merge breaks no depth, key or reserved-object rule its two parts keep. */
  lemma {:induction false} MergeStaysShapely(target: Json, patch: Json, depth: nat)
    requires Shapely(target, depth) && Shapely(patch, depth)
    ensures Shapely(Merged(target, patch), depth)
    decreases patch
  {
    if patch.Obj? {
      var merged := Merged(target, patch).members;
      forall key | key in merged
        ensures KeyOK(key) && Shapely(merged[key], depth + 1)
      {
        if key in patch.members {
          if !(target.Obj? && key in target.members) {
            ShapelyNull(depth + 1);
          }
          MergeStaysShapely(At(target, key), patch.members[key], depth + 1);
        }
      }
      MergeStaysPlain(target, patch);
    }
  }

  /** Each reserved marker would already be in the target or in the patch. */
  lemma MergeStaysPlain(target: Json, patch: Json)
    requires patch.Obj? && !Reserved(patch.members) && !Reserved(Members(target))
    ensures !Reserved(Merged(target, patch).members)
  {
  }

  /** What a merge costs at most: the items of both, less the shared root when both are objects. */
  ghost function MergeBound(target: Json, patch: Json): nat {
    if target.Obj? && patch.Obj? then Count(target) - 1 + Count(patch) else Count(patch)
  }

  /** The part of an object's count that falls under some keys. */
  ghost function Share(v: Json, keys: set<string>): nat
    requires v.Obj?
  {
    CountKeys(v, keys * v.members.Keys)
  }

  lemma SharePick(v: Json, keys: set<string>, key: string)
    requires v.Obj? && key in keys
    ensures Share(v, keys) == Share(v, keys - {key}) + (if key in v.members then Count(v.members[key]) else 0)
  {
    assert (keys * v.members.Keys) - {key} == (keys - {key}) * v.members.Keys;
    if key in v.members {
      CountPick(v, keys * v.members.Keys, key);
    } else {
      assert keys * v.members.Keys == (keys - {key}) * v.members.Keys;
    }
  }

  lemma {:induction false} MergeCount(target: Json, patch: Json)
    ensures Count(Merged(target, patch)) <= MergeBound(target, patch)
    decreases patch, 1
  {
    if patch.Obj? {
      var base := Obj(Members(target));
      var merged := Merged(target, patch);
      var keys := merged.members.Keys;
      MergeCountKeys(target, patch, keys);
      assert keys * keys == keys;
      CountSubset(base, keys * base.members.Keys, base.members.Keys);
      CountSubset(patch, keys * patch.members.Keys, patch.members.Keys);
    }
  }

  lemma {:induction false} MergeCountKeys(target: Json, patch: Json, keys: set<string>)
    requires patch.Obj? && keys <= Merged(target, patch).members.Keys
    ensures Share(Merged(target, patch), keys) <= Share(Obj(Members(target)), keys) + Share(patch, keys)
    decreases patch, 0, |keys|
  {
    if keys == {} {
      assert keys * Merged(target, patch).members.Keys == {};
    } else {
      var key :| key in keys;
      MergeCountKeys(target, patch, keys - {key});
      SharePick(Merged(target, patch), keys, key);
      SharePick(Obj(Members(target)), keys, key);
      SharePick(patch, keys, key);
      if key in patch.members {
        MergeCount(At(target, key), patch.members[key]);
      }
    }
  }

  /** Patching a published document can only fail on totals: its items or its bytes. */
  lemma PatchFailsOnlyOnTotals(size: Json -> nat, title: string, view: string, data: Json, patch: Json)
    requires ValidDocument(size, title, view, data) && ValidData(size, patch)
    ensures var merged := Merged(data, patch);
            && (ValidDocument(size, title, view, merged) <==>
                Count(merged) <= MAX_NODES && Utf8Len(title) + Utf8Len(view) + size(merged) <= MAX_ARTIFACT_BYTES)
            && Count(merged) < Count(data) + Count(patch)
  {
    MergeStaysShapely(data, patch, 0);
    MergeCount(data, patch);
  }
}
