/** JSON values and the merge patch of section 2 of RFC 7396. */
module Json {
  import opened Wrappers

  datatype Json =
    | Null
    | Bool(flag: bool)
    | Number(digits: string)
    | Text(text: string)
    | Array(items: seq<Json>)
    | Object(members: map<string, Json>)

  /** A value that is not an object counts as the empty object when an object patch is merged into it. */
  function Members(v: Json): map<string, Json> {
    if v.Object? then v.members else map[]
  }

  function Member(v: Json, key: string): Json {
    if key in Members(v) then Members(v)[key] else Null
  }

  /** Recursion descends into the patch: every member is a proper part of it. */
  function Merge(doc: Json, patch: Json): Json
    decreases patch
  {
    if !patch.Object? then patch
    else
      Object(map key | key in Members(doc).Keys + patch.members.Keys
                       && !(key in patch.members && patch.members[key].Null?)
             :: if key in patch.members then Merge(Member(doc, key), patch.members[key]) else Member(doc, key))
  }

  /** The value reached by following member names from `v`. */
  function At(v: Json, path: seq<string>): Option<Json> {
    if path == [] then Some(v)
    else if path[0] in Members(v) then At(Members(v)[path[0]], path[1..])
    else None
  }

  /** What a patch asks for at one path, read off the patch alone. */
  datatype Edit =
    | Keep                          // the path leaves the patch at a member it does not name
    | Put(value: Option<Json>)      // a null member removes; any other non-object replaces
    | Descend                       // the path ends at an object of the patch

  function Asks(patch: Json, path: seq<string>): Edit {
    if !patch.Object? then Put(At(patch, path))
    else if path == [] then Descend
    else if path[0] !in patch.members then Keep
    else if patch.members[path[0]].Null? then Put(None)
    else Asks(patch.members[path[0]], path[1..])
  }

  /** Merging does at every path what the patch asks for there, and nothing else. */
  lemma {:induction false} MergeDoesWhatPatchAsks(doc: Json, patch: Json, path: seq<string>)
    ensures match Asks(patch, path)
            case Keep => At(Merge(doc, patch), path) == At(doc, path)
            case Put(v) => At(Merge(doc, patch), path) == v
            case Descend => At(Merge(doc, patch), path).Some? && At(Merge(doc, patch), path).value.Object?
    decreases path
  {
    if patch.Object? && path != [] && path[0] in patch.members && !patch.members[path[0]].Null? {
      var key := path[0];
      MergeDoesWhatPatchAsks(Member(doc, key), patch.members[key], path[1..]);
      if key !in Members(doc) && Asks(patch, path).Keep? {
        assert path[1..] != [];
      }
    }
  }

  lemma {:induction false} MergeIdempotent(doc: Json, patch: Json)
    ensures Merge(Merge(doc, patch), patch) == Merge(doc, patch)
    decreases patch
  {
    if patch.Object? {
      forall key | key in patch.members && !patch.members[key].Null? {
        MergeIdempotent(Member(doc, key), patch.members[key]);
      }
    }
  }

  // ---- Two successive patches as one ----

  function Lookup(v: Json, key: string): Option<Json> {
    if key in Members(v) then Some(Members(v)[key]) else None
  }

  /** What an object patch leaves at one member. */
  lemma MergeLookup(doc: Json, patch: Json, key: string)
    requires patch.Object?
    ensures Lookup(Merge(doc, patch), key) ==
            if key !in patch.members then Lookup(doc, key)
            else if patch.members[key].Null? then None
            else Some(Merge(Member(doc, key), patch.members[key]))
  {
  }

  lemma SameLookups(a: Json, b: Json)
    requires a.Object? && b.Object?
    requires forall key :: Lookup(a, key) == Lookup(b, key)
    ensures a == b
  {
    forall key ensures key in a.members <==> key in b.members
      ensures key in a.members ==> a.members[key] == b.members[key]
    {
      assert Lookup(a, key) == Lookup(b, key);
    }
    assert a.members.Keys == b.members.Keys;
  }

  /** The members of `second` override; where both patches hold objects they are composed in turn. */
  function Compose(first: Json, second: Json): Json
    decreases second
  {
    if !first.Object? || !second.Object? then second
    else
      Object(map key | key in first.members.Keys + second.members.Keys
             :: if key !in second.members then first.members[key]
                else if key !in first.members then second.members[key]
                else Compose(first.members[key], second.members[key]))
  }

  /** Wherever the second patch is an object, the first is an object too. */
  predicate Composable(first: Json, second: Json)
    decreases second
  {
    second.Object? ==>
      && first.Object?
      && forall key <- second.members :: key in first.members ==> Composable(first.members[key], second.members[key])
  }

  lemma ComposeSoundAt(doc: Json, first: Json, second: Json, key: string)
    requires first.Object? && second.Object? && Composable(first, second)
    requires key in first.members && key in second.members ==>
               Merge(Merge(Member(doc, key), first.members[key]), second.members[key]) ==
               Merge(Member(doc, key), Compose(first.members[key], second.members[key]))
    ensures Lookup(Merge(Merge(doc, first), second), key) == Lookup(Merge(doc, Compose(first, second)), key)
  {
    MergeLookup(doc, first, key);
    MergeLookup(Merge(doc, first), second, key);
    MergeLookup(doc, Compose(first, second), key);
  }

  lemma {:induction false} ComposeSound(doc: Json, first: Json, second: Json)
    requires Composable(first, second)
    ensures Merge(Merge(doc, first), second) == Merge(doc, Compose(first, second))
    decreases second
  {
    if second.Object? {
      forall key ensures Lookup(Merge(Merge(doc, first), second), key) == Lookup(Merge(doc, Compose(first, second)), key) {
        if key in first.members && key in second.members {
          ComposeSound(Member(doc, key), first.members[key], second.members[key]);
        }
        ComposeSoundAt(doc, first, second, key);
      }
      SameLookups(Merge(Merge(doc, first), second), Merge(doc, Compose(first, second)));
    }
  }

  /** A member no object names, found by length. */
  lemma FreshKey(keys: set<string>) returns (key: string)
    ensures key !in keys
  {
    var n := LongerThanAll(keys);
    key := seq(n, _ => 'a');
  }

  /** `single` has the effect of `first` followed by `second` on every document. */
  ghost predicate StandsFor(single: Json, first: Json, second: Json) {
    forall doc :: Merge(Merge(doc, first), second) == Merge(doc, single)
  }

  /** A merge patch keeps members it does not name, so it cannot replace a whole value by an object. */
  lemma CannotStandFor(single: Json, first: Json, second: Json)
    requires second.Object? && !first.Object?
    ensures !StandsFor(single, first, second)
  {
    var key := FreshKey(second.members.Keys + Members(single).Keys);
    var doc := Object(map[key := Null]);
    assert key !in Merge(Merge(doc, first), second).members;
    assert single.Object? ==> key in Merge(doc, single).members;
  }

  /** Merging into a document with one member, seen at that member. */
  lemma MergeSingleton(key: string, v: Json, patch: Json)
    requires patch.Object? && key in patch.members
    ensures key in Merge(Object(map[key := v]), patch).members <==> !patch.members[key].Null?
    ensures !patch.members[key].Null? ==> Merge(Object(map[key := v]), patch).members[key] == Merge(v, patch.members[key])
    ensures Member(Merge(Object(map[key := v]), patch), key) == Merge(v, patch.members[key])
  {
    assert Member(Object(map[key := v]), key) == v;
  }

  /** What two successive patches leave at a shared member of such a document. */
  lemma MergeSingletonTwice(key: string, v: Json, first: Json, second: Json)
    requires first.Object? && second.Object?
    requires key in first.members && key in second.members
    ensures var twice := Merge(Merge(Object(map[key := v]), first), second);
            && (key in twice.members <==> !second.members[key].Null?)
            && Member(twice, key) == Merge(Merge(v, first.members[key]), second.members[key])
  {
    MergeSingleton(key, v, first);
  }

  /** A single patch that stands for two also does so member by member. */
  lemma StandsForMember(single: Json, first: Json, second: Json, key: string)
    requires first.Object? && second.Object?
    requires StandsFor(single, first, second)
    requires key in first.members && key in second.members && second.members[key].Object?
    ensures key in Members(single)
    ensures StandsFor(Members(single)[key], first.members[key], second.members[key])
  {
    var kept := Object(map[key := Null]);
    MergeSingletonTwice(key, Null, first, second);
    assert Merge(Merge(kept, first), second) == Merge(kept, single);
    assert Member(Merge(kept, single), key).Object?;
    forall v ensures Merge(Merge(v, first.members[key]), second.members[key]) == Merge(v, single.members[key]) {
      MergeSingletonTwice(key, v, first, second);
      MergeSingleton(key, v, single);
      assert Merge(Merge(Object(map[key := v]), first), second) == Merge(Object(map[key := v]), single);
    }
  }

  lemma {:induction false} ComposeComplete(single: Json, first: Json, second: Json)
    requires StandsFor(single, first, second)
    ensures Composable(first, second)
    decreases second
  {
    if second.Object? {
      if !first.Object? {
        CannotStandFor(single, first, second);
      } else {
        forall key | key in second.members && key in first.members && second.members[key].Object?
          ensures Composable(first.members[key], second.members[key])
        {
          StandsForMember(single, first, second, key);
          ComposeComplete(Members(single)[key], first.members[key], second.members[key]);
        }
      }
    }
  }

  /** Exactly when two successive patches can be replaced by a single one. */
  lemma SinglePatchIff(first: Json, second: Json)
    ensures (exists single :: StandsFor(single, first, second)) <==> Composable(first, second)
  {
    if Composable(first, second) {
      forall doc ensures Merge(Merge(doc, first), second) == Merge(doc, Compose(first, second)) {
        ComposeSound(doc, first, second);
      }
      assert StandsFor(Compose(first, second), first, second);
    }
    if single :| StandsFor(single, first, second) {
      ComposeComplete(single, first, second);
    }
  }

  // ---- Order of two patches ----

  /** Objects that agree recursively at their shared members, or the same non-object. */
  predicate Commuting(first: Json, second: Json)
    decreases second
  {
    if first.Object? && second.Object? then
      forall key <- second.members :: key in first.members ==> Commuting(first.members[key], second.members[key])
    else first == second
  }

  lemma CommutingSwapAt(doc: Json, first: Json, second: Json, key: string)
    requires first.Object? && second.Object? && Commuting(first, second)
    requires key in first.members && key in second.members ==>
               Merge(Merge(Member(doc, key), first.members[key]), second.members[key]) ==
               Merge(Merge(Member(doc, key), second.members[key]), first.members[key])
    ensures Lookup(Merge(Merge(doc, first), second), key) == Lookup(Merge(Merge(doc, second), first), key)
  {
    MergeLookup(doc, first, key);
    MergeLookup(Merge(doc, first), second, key);
    MergeLookup(doc, second, key);
    MergeLookup(Merge(doc, second), first, key);
  }

  lemma {:induction false} CommutingSwap(doc: Json, first: Json, second: Json)
    requires Commuting(first, second)
    ensures Merge(Merge(doc, first), second) == Merge(Merge(doc, second), first)
    decreases second
  {
    if first.Object? && second.Object? {
      forall key ensures Lookup(Merge(Merge(doc, first), second), key) == Lookup(Merge(Merge(doc, second), first), key) {
        if key in first.members && key in second.members {
          CommutingSwap(Member(doc, key), first.members[key], second.members[key]);
        }
        CommutingSwapAt(doc, first, second, key);
      }
      SameLookups(Merge(Merge(doc, first), second), Merge(Merge(doc, second), first));
    }
  }

  ghost predicate Interchangeable(first: Json, second: Json) {
    forall doc :: Merge(Merge(doc, first), second) == Merge(Merge(doc, second), first)
  }

  lemma InterchangeableMember(first: Json, second: Json, key: string)
    requires first.Object? && second.Object?
    requires Interchangeable(first, second)
    requires key in first.members && key in second.members
    ensures first.members[key].Null? <==> second.members[key].Null?
    ensures Interchangeable(first.members[key], second.members[key])
  {
    forall v
      ensures Merge(Merge(v, first.members[key]), second.members[key]) ==
              Merge(Merge(v, second.members[key]), first.members[key])
    {
      MergeSingletonTwice(key, v, first, second);
      MergeSingletonTwice(key, v, second, first);
      var doc := Object(map[key := v]);
      assert Merge(Merge(doc, first), second) == Merge(Merge(doc, second), first);
    }
    assert first.members[key].Null? <==> second.members[key].Null? by {
      MergeSingletonTwice(key, Null, first, second);
      MergeSingletonTwice(key, Null, second, first);
      var doc := Object(map[key := Null]);
      assert Merge(Merge(doc, first), second) == Merge(Merge(doc, second), first);
    }
  }

  lemma {:induction false} InterchangeableCommute(first: Json, second: Json)
    requires Interchangeable(first, second)
    ensures Commuting(first, second)
    decreases second
  {
    assert Merge(Merge(Null, first), second) == Merge(Merge(Null, second), first);
    if first.Object? && second.Object? {
      forall key | key in second.members && key in first.members
        ensures Commuting(first.members[key], second.members[key])
      {
        InterchangeableMember(first, second, key);
        InterchangeableCommute(first.members[key], second.members[key]);
      }
    }
  }

  /** Exactly when the order of two patches does not matter; disjoint object patches are one case. */
  lemma OrderIrrelevantIff(first: Json, second: Json)
    ensures Interchangeable(first, second) <==> Commuting(first, second)
  {
    if Commuting(first, second) {
      forall doc ensures Merge(Merge(doc, first), second) == Merge(Merge(doc, second), first) {
        CommutingSwap(doc, first, second);
      }
    }
    if Interchangeable(first, second) {
      InterchangeableCommute(first, second);
    }
  }
}
