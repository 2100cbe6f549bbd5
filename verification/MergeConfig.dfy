// Merging a stage fragment into a configuration and reporting what it changes.
module MergeConfig {
  import opened Common
  import opened Text

  /****** deep_merge ******/

  // What a key holds after merging a value into a target.
  function Merged(target: Json, addition: Json): Json
    requires target.Obj? && addition.Obj?
    decreases addition
  {
    var t, a := target.fields, addition.fields;
    Obj(map k | k in t.Keys + a.Keys ::
          if k !in a then t[k]
          else if k in t && t[k].Obj? && a[k].Obj? then Merged(t[k], a[k])
          else a[k])
  }

  // The value a key gets from the fragment.
  function MergedValue(target: map<string, Json>, addition: Json, key: string): Json
    requires addition.Obj? && key in addition.fields
  {
    var value := addition.fields[key];
    if key in target && target[key].Obj? && value.Obj? then Merged(target[key], value) else value
  }

  lemma MergedFields(target: map<string, Json>, addition: Json)
    requires addition.Obj?
    ensures var merged := Merged(Obj(target), addition);
            && merged.Obj? && merged.fields.Keys == target.Keys + addition.fields.Keys
            && (forall k | k in merged.fields ::
                  merged.fields[k] == if k in addition.fields then MergedValue(target, addition, k) else target[k])
  {
  }

  // deep_merge, key by key into the target.
  method DeepMerge(target: map<string, Json>, addition: map<string, Json>, ghost whole: Json) returns (merged: map<string, Json>)
    requires whole == Obj(addition)
    ensures Obj(merged) == Merged(Obj(target), whole)
    decreases whole
  {
    hide Merged;
    merged := target;
    var remaining := addition.Keys;
    while remaining != {}
      invariant remaining <= addition.Keys
      invariant merged.Keys == target.Keys + (addition.Keys - remaining)
      invariant forall k | k in merged ::
                  merged[k] == if k in addition && k !in remaining then MergedValue(target, whole, k) else target[k]
      decreases remaining
    {
      var key :| key in remaining;
      remaining := remaining - {key};
      var value := addition[key];
      assert key in merged <==> key in target;
      if value.Obj? && key in merged && merged[key].Obj? {
        var inner := DeepMerge(merged[key].fields, value.fields, whole.fields[key]);
        merged := merged[key := Obj(inner)];
      } else {
        merged := merged[key := value];
      }
    }
    MergedFields(target, whole);
    assert merged == Merged(Obj(target), whole).fields;
  }

  lemma {:induction false} MergeTwice(target: Json, addition: Json)
    requires target.Obj? && addition.Obj?
    ensures Merged(Merged(target, addition), addition) == Merged(target, addition)
    decreases addition
  {
    var t, a := target.fields, addition.fields;
    forall k | k in a && k in t && t[k].Obj? && a[k].Obj?
      ensures Merged(Merged(t[k], a[k]), a[k]) == Merged(t[k], a[k])
    {
      MergeTwice(t[k], a[k]);
    }
    forall k | k in a && a[k].Obj?
      ensures Merged(a[k], a[k]) == a[k]
    {
      MergeSelf(a[k]);
    }
  }

  lemma {:induction false} MergeSelf(value: Json)
    requires value.Obj?
    ensures Merged(value, value) == value
    decreases value
  {
    forall k | k in value.fields && value.fields[k].Obj?
      ensures Merged(value.fields[k], value.fields[k]) == value.fields[k]
    {
      MergeSelf(value.fields[k]);
    }
  }

  // A fragment decides a path when somewhere along it the fragment has a plain value,
  // or an object where the target has none.
  ghost predicate Decides(target: Json, addition: Json, path: seq<string>) {
    exists k | 0 <= k <= |path| :: DecidesAt(target, addition, path[..k])
  }

  predicate DecidesAt(target: Json, addition: Json, path: seq<string>) {
    var t, a := At(target, path), At(addition, path);
    a.Some? && !(a.value.Obj? && t.Some? && t.value.Obj?)
  }

  predicate BothObjects(target: Json, addition: Json, path: seq<string>) {
    At(target, path).Some? && At(target, path).value.Obj? && At(addition, path).Some? && At(addition, path).value.Obj?
  }

  // Every lookup in the merged tree: the fragment's where it decides; the target's
  // where the fragment ends; and both merged where both are objects.
  lemma {:induction false} MergedAt(target: Json, addition: Json, path: seq<string>)
    requires target.Obj? && addition.Obj?
    ensures var merged := At(Merged(target, addition), path);
            if Decides(target, addition, path) then merged == At(addition, path)
            else if At(addition, path).None? then merged == At(target, path)
            else BothObjects(target, addition, path) && merged == Some(Merged(At(target, path).value, At(addition, path).value))
    decreases |path|
  {
    assert path[..|path|] == path;
    if path == [] {
      assert forall k | 0 <= k <= |path| :: path[..k] == [] && !DecidesAt(target, addition, path[..k]);
    } else {
      var t, a, key, rest := target.fields, addition.fields, path[0], path[1..];
      DecidesBelow(target, addition, path);
      if key in a && key in t && t[key].Obj? && a[key].Obj? {
        MergedAt(t[key], a[key], rest);
      }
    }
  }

  lemma DecidesBelow(target: Json, addition: Json, path: seq<string>)
    requires target.Obj? && addition.Obj? && path != []
    ensures var t, a, key := target.fields, addition.fields, path[0];
            Decides(target, addition, path) <==>
            key in a && (!(key in t && t[key].Obj? && a[key].Obj?) || Decides(t[key], a[key], path[1..]))
  {
    var t, a, key, rest := target.fields, addition.fields, path[0], path[1..];
    forall k | 1 <= k <= |path|
      ensures At(target, path[..k]) == (if key in t then At(t[key], rest[..k - 1]) else None)
      ensures At(addition, path[..k]) == (if key in a then At(a[key], rest[..k - 1]) else None)
    {
      assert path[..k][0] == key && path[..k][1..] == rest[..k - 1];
    }
    assert !DecidesAt(target, addition, path[..0]);
    if key in a && !(key in t && t[key].Obj? && a[key].Obj?) {
      assert rest[..0] == [];
      assert DecidesAt(target, addition, path[..1]);
    }
    if key in a && key in t && Decides(t[key], a[key], rest) {
      var k :| 0 <= k <= |rest| && DecidesAt(t[key], a[key], rest[..k]);
      assert DecidesAt(target, addition, path[..k + 1]);
    }
    if Decides(target, addition, path) {
      var k :| 0 <= k <= |path| && DecidesAt(target, addition, path[..k]);
      assert k > 0;
      assert key in a && (key in t ==> DecidesAt(t[key], a[key], rest[..k - 1]));
    }
  }

  /****** apply_section ******/

  // A catalog section: keys to remove, a fragment of the configuration and one of its
  // local execution part.
  datatype Section = Section(remove: seq<string>, customer: Option<Json>, local: Option<Json>)

  const LOCAL := "localExecution"

  predicate IsSection(section: Section) {
    (section.customer.Some? ==> section.customer.value.Obj?) && (section.local.Some? ==> section.local.value.Obj?)
  }

  function KeysOf(keys: seq<string>): set<string> {
    set key | key in keys
  }

  function Applied(config: Json, section: Section): Option<Json>
    requires config.Obj? && IsSection(section)
    ensures Applied(config, section).Some? ==> Applied(config, section).value.Obj?
  {
    var removed := Obj(config.fields - KeysOf(section.remove));
    var merged := if section.customer.Some? then Merged(removed, section.customer.value) else removed;
    if section.local.None? then Some(merged)
    else if LOCAL !in merged.fields || !merged.fields[LOCAL].Obj? then None
    else Some(Obj(merged.fields[LOCAL := Merged(merged.fields[LOCAL], section.local.value)]))
  }

  method RemoveKeys(target: map<string, Json>, keys: seq<string>) returns (left: map<string, Json>)
    ensures left == target - KeysOf(keys)
  {
    left := target;
    for i := 0 to |keys|
      invariant left == target - KeysOf(keys[..i])
    {
      assert keys[..i + 1] == keys[..i] + [keys[i]];
      left := left - {keys[i]};
    }
    assert keys[..|keys|] == keys;
  }

  method ApplySection(config: map<string, Json>, section: Section) returns (result: Option<map<string, Json>>)
    requires IsSection(section)
    ensures result.None? <==> Applied(Obj(config), section).None?
    ensures result.Some? ==> Applied(Obj(config), section) == Some(Obj(result.value))
  {
    var merged := RemoveKeys(config, section.remove);
    if section.customer.Some? {
      merged := DeepMerge(merged, section.customer.value.fields, section.customer.value);
    }
    if section.local.Some? {
      if LOCAL !in merged || !merged[LOCAL].Obj? { return None; }
      var local := DeepMerge(merged[LOCAL].fields, section.local.value.fields, section.local.value);
      merged := merged[LOCAL := Obj(local)];
    }
    return Some(merged);
  }

  // A fragment that has been merged already is absorbed by a later one: merging both
  // again changes nothing.
  lemma {:induction false} Absorbed(target: Json, first: Json, second: Json)
    requires target.Obj? && first.Obj? && second.Obj? && Merged(target, first) == target
    ensures Merged(Merged(Merged(target, second), first), second) == Merged(target, second)
    decreases second
  {
    hide At;
    var t, a, b := target.fields, first.fields, second.fields;
    var once := Merged(target, second);
    var again := Merged(once, first);
    var twice := Merged(again, second);
    forall k | k in once.fields.Keys + again.fields.Keys + twice.fields.Keys
      ensures k in twice.fields && k in once.fields && twice.fields[k] == once.fields[k]
    {
      assert k in a ==> k in t && k in Merged(target, first).fields && Merged(target, first).fields[k] == t[k];
      if k in b && k in t && t[k].Obj? && b[k].Obj? {
        if k in a { Absorbed(t[k], a[k], b[k]); } else { MergeTwice(t[k], b[k]); }
      } else if k in b && b[k].Obj? {
        MergeSelf(b[k]);
      }
    }
  }

  // Applying a section twice is applying it once.
  lemma SectionTwice(config: Json, section: Section)
    requires config.Obj? && IsSection(section) && Applied(config, section).Some?
    ensures Applied(Applied(config, section).value, section) == Applied(config, section)
  {
    var customer := if section.customer.Some? then section.customer.value else Obj(map[]);
    var removed := Obj(config.fields - KeysOf(section.remove));
    var merged := Merged(removed, customer);
    MergeNothing(removed);
    RemovedAgain(config, KeysOf(section.remove), customer);
    assert Merged(Obj(merged.fields - KeysOf(section.remove)), customer) == merged;
    var done := Applied(config, section).value;
    MergeNothing(Obj(done.fields - KeysOf(section.remove)));
    if section.local.Some? {
      LocalTwice(merged, KeysOf(section.remove), customer, section.local.value);
    }
  }

  lemma MergeNothing(target: Json)
    requires target.Obj?
    ensures Merged(target, Obj(map[])) == target
  {
    assert Merged(target, Obj(map[])).fields == target.fields;
  }

  lemma RemovedAgain(config: Json, remove: set<string>, customer: Json)
    requires config.Obj? && customer.Obj?
    ensures var merged := Merged(Obj(config.fields - remove), customer);
            Merged(Obj(merged.fields - remove), customer) == merged
  {
    var removed := Obj(config.fields - remove);
    MergeTwice(removed, customer);
    var merged := Merged(removed, customer);
    var again := Merged(Obj(merged.fields - remove), customer);
    assert again.fields.Keys == merged.fields.Keys;
    forall k | k in merged.fields
      ensures again.fields[k] == merged.fields[k]
    {
      assert k !in remove ==> again.fields[k] == Merged(merged, customer).fields[k];
    }
  }

  lemma LocalTwice(merged: Json, remove: set<string>, customer: Json, local: Json)
    requires merged.Obj? && customer.Obj? && local.Obj?
    requires LOCAL in merged.fields && merged.fields[LOCAL].Obj?
    requires Merged(Obj(merged.fields - remove), customer) == merged
    ensures var done := Obj(merged.fields[LOCAL := Merged(merged.fields[LOCAL], local)]);
            var again := Merged(Obj(done.fields - remove), customer);
            && LOCAL in again.fields && again.fields[LOCAL].Obj?
            && Obj(again.fields[LOCAL := Merged(again.fields[LOCAL], local)]) == done
  {
    var done := Obj(merged.fields[LOCAL := Merged(merged.fields[LOCAL], local)]);
    var again := Merged(Obj(done.fields - remove), customer);
    var was := Merged(Obj(merged.fields - remove), customer);
    assert forall k | k != LOCAL :: (k in again.fields <==> k in was.fields) && (k in was.fields ==> again.fields[k] == was.fields[k]);
    if LOCAL in remove || LOCAL !in customer.fields {
      if LOCAL !in remove { MergeTwice(merged.fields[LOCAL], local); }
    } else {
      assert merged.fields[LOCAL] == was.fields[LOCAL];
      assert customer.fields[LOCAL].Obj?;
      Absorbed(merged.fields[LOCAL], customer.fields[LOCAL], local);
    }
    assert again.fields[LOCAL := Merged(again.fields[LOCAL], local)] == done.fields;
  }

  /****** changed_paths ******/

  // A path is reported where a key exists on one side only, or where the two values
  // differ and are not both objects.
  predicate Reported(before: Json, after: Json, path: seq<string>)
    decreases |path|
  {
    if path == [] then !(before.Obj? && after.Obj?) && !PyEqual(before, after)
    else
      && before.Obj? && after.Obj?
      && var key := path[0];
      if key in before.fields && key in after.fields then Reported(before.fields[key], after.fields[key], path[1..])
      else (key in before.fields || key in after.fields) && |path| == 1
  }

  ghost predicate Unreported(before: Json, after: Json) {
    forall path :: !Reported(before, after, path)
  }

  // Nothing is reported exactly when the trees are equal to Python.
  lemma {:induction false} NothingReported(before: Json, after: Json)
    ensures Unreported(before, after) <==> PyEqual(before, after)
    decreases before
  {
    if before.Obj? && after.Obj? {
      forall k | k in before.fields && k in after.fields
        ensures Unreported(before.fields[k], after.fields[k]) <==> PyEqual(before.fields[k], after.fields[k])
      {
        NothingReported(before.fields[k], after.fields[k]);
      }
      if PyEqual(before, after) {
        forall path
          ensures !Reported(before, after, path)
        {
          if path != [] && path[0] in before.fields {
            assert PyEqual(before.fields[path[0]], after.fields[path[0]]);
            assert !Reported(before.fields[path[0]], after.fields[path[0]], path[1..]);
          }
        }
      } else if Unreported(before, after) {
        forall k
          ensures k in before.fields <==> k in after.fields
        {
          assert !Reported(before, after, [k]);
        }
        forall k, path | k in before.fields && k in after.fields
          ensures !Reported(before.fields[k], after.fields[k], path)
        {
          assert !Reported(before, after, [k] + path) && ([k] + path)[1..] == path;
        }
        assert false;
      }
    } else {
      LeafReports(before, after);
      assert Reported(before, after, []) <==> !PyEqual(before, after);
    }
  }

  lemma LeafReports(before: Json, after: Json)
    requires !(before.Obj? && after.Obj?)
    ensures forall path :: Reported(before, after, path) <==> path == [] && !PyEqual(before, after)
  {
  }

  // Equality to Python is equality once the numbers are of the same kinds.
  predicate SameKinds(a: Json, b: Json)
    decreases a
  {
    if a.Arr? && b.Arr? then |a.items| == |b.items| ==> forall i | 0 <= i < |a.items| :: SameKinds(a.items[i], b.items[i])
    else if a.Obj? && b.Obj? then forall k | k in a.fields && k in b.fields :: SameKinds(a.fields[k], b.fields[k])
    else (Numeric(a).Some? && Numeric(b).Some?) ==> ((a.Bool? <==> b.Bool?) && (a.Int? <==> b.Int?))
  }

  lemma {:induction false} EqualOfSameKinds(a: Json, b: Json)
    ensures a == b <==> PyEqual(a, b) && SameKinds(a, b)
    decreases a
  {
    if a.Arr? && b.Arr? {
      forall i | 0 <= i < |a.items| && |a.items| == |b.items|
        ensures a.items[i] == b.items[i] <==> PyEqual(a.items[i], b.items[i]) && SameKinds(a.items[i], b.items[i])
      {
        EqualOfSameKinds(a.items[i], b.items[i]);
      }
      assert a == b <==> |a.items| == |b.items| && forall i | 0 <= i < |a.items| :: a.items[i] == b.items[i];
    } else if a.Obj? && b.Obj? {
      forall k | k in a.fields && k in b.fields
        ensures a.fields[k] == b.fields[k] <==> PyEqual(a.fields[k], b.fields[k]) && SameKinds(a.fields[k], b.fields[k])
      {
        EqualOfSameKinds(a.fields[k], b.fields[k]);
      }
      assert a == b <==> a.fields == b.fields;
      assert a.fields == b.fields <==> a.fields.Keys == b.fields.Keys && forall k | k in a.fields && k in b.fields :: a.fields[k] == b.fields[k];
    }
  }

  // So an unreported pair of trees is equal exactly when no number changed its kind:
  lemma UnreportedIsEqual(before: Json, after: Json)
    ensures Unreported(before, after) ==> (before == after <==> SameKinds(before, after))
    ensures before == after ==> Unreported(before, after)
  {
    NothingReported(before, after);
    EqualOfSameKinds(before, after);
  }

  // ... replacing true by 1 is such a change, and it is not reported.
  lemma KindChangeIsUnreported()
    ensures var before, after := Obj(map["stream" := Bool(true)]), Obj(map["stream" := Int(1)]);
            before != after && Unreported(before, after)
  {
    var before, after := Obj(map["stream" := Bool(true)]), Obj(map["stream" := Int(1)]);
    assert PyEqual(before.fields["stream"], after.fields["stream"]);
    assert PyEqual(before, after);
    NothingReported(before, after);
    assert before.fields["stream"] != after.fields["stream"];
  }

  predicate Comparable(p: seq<string>, q: seq<string>) {
    p <= q || q <= p
  }

  // Away from the reported paths both trees answer every lookup alike.
  lemma {:induction false} UnreportedAgree(before: Json, after: Json, path: seq<string>)
    requires forall p | Reported(before, after, p) :: !Comparable(p, path)
    ensures var b, a := At(before, path), At(after, path);
            (b.Some? <==> a.Some?) && (b.Some? ==> PyEqual(b.value, a.value))
    decreases |path|
  {
    if path == [] {
      assert forall p :: Comparable(p, path);
      NothingReported(before, after);
    } else {
      assert [] <= path && !Reported(before, after, []);
      if before.Obj? && after.Obj? {
        var key, rest := path[0], path[1..];
        assert Comparable([key], path) && !Reported(before, after, [key]);
        if key in before.fields && key in after.fields {
          forall p | Reported(before.fields[key], after.fields[key], p)
            ensures !Comparable(p, rest)
          {
            assert ([key] + p)[1..] == p && Reported(before, after, [key] + p);
            assert path == [key] + rest;
          }
          UnreportedAgree(before.fields[key], after.fields[key], rest);
        }
      }
    }
  }

  /****** Printed paths ******/

  // A path as the report prints it, from a prefix on.
  function PrintedFrom(prefix: string, path: seq<string>): string
    decreases |path|
  {
    if path == [] then prefix
    else PrintedFrom(if prefix != "" then prefix + "." + path[0] else path[0], path[1..])
  }

  function Extended(prefix: string, key: string): string {
    if prefix != "" then prefix + "." + key else key
  }

  // The order of the report: by the keys from the top down.
  predicate PathBefore(p: seq<string>, q: seq<string>) {
    p != [] && q != [] && if p[0] == q[0] then PathBefore(p[1..], q[1..]) else Before(p[0], q[0])
  }

  predicate InOrder(paths: seq<seq<string>>) {
    forall i, j | 0 <= i < j < |paths| :: PathBefore(paths[i], paths[j])
  }

  // The first of some keys.
  method FirstKey(keys: set<string>) returns (first: string)
    requires keys != {}
    ensures first in keys && forall k | k in keys :: Before(first, k)
  {
    first :| first in keys;
    var remaining := keys - {first};
    BeforeTotal(first, first);
    while remaining != {}
      invariant remaining <= keys && first in keys - remaining && forall k | k in keys - remaining :: Before(first, k)
      decreases remaining
    {
      var key :| key in remaining;
      remaining := remaining - {key};
      BeforeTotal(first, key);
      BeforeTotal(key, key);
      if !Before(first, key) {
        forall k | k in keys - remaining
          ensures Before(key, k)
        {
          if k != key { BeforeTrans(key, first, k); }
        }
        first := key;
      }
    }
  }

  predicate PrintsAs(changes: seq<string>, prefix: string, paths: seq<seq<string>>) {
    |changes| == |paths| && forall i | 0 <= i < |paths| :: changes[i] == PrintedFrom(prefix, paths[i])
  }

  // The paths are those reported through one of the keys.
  ghost predicate ReportedThrough(before: Json, after: Json, keys: set<string>, paths: seq<seq<string>>) {
    forall p :: p in paths <==> p != [] && p[0] in keys && Reported(before, after, p)
  }

  // Exactly the reported paths, each once, in order.
  ghost predicate ReportOf(before: Json, after: Json, paths: seq<seq<string>>) {
    (forall p :: p in paths <==> Reported(before, after, p)) && InOrder(paths)
  }

  // changed_paths: it lists exactly the reported paths, each once, in order, printed.
  method ChangedPaths(before: Json, after: Json, prefix: string) returns (changes: seq<string>)
    ensures exists paths :: ReportOf(before, after, paths) && PrintsAs(changes, prefix, paths)
    decreases before
  {
    if !(before.Obj? && after.Obj?) {
      LeafReports(before, after);
      if PyEqual(before, after) {
        assert ReportOf(before, after, []) && PrintsAs([], prefix, []);
        return [];
      }
      assert ReportOf(before, after, [[]]) && PrintsAs([prefix], prefix, [[]]);
      return [prefix];
    }
    changes := [];
    ghost var paths: seq<seq<string>> := [];
    var keys := before.fields.Keys + after.fields.Keys;
    var remaining := keys;
    while remaining != {}
      invariant remaining <= keys && forall done, k | done in keys - remaining && k in remaining :: Before(done, k)
      invariant ReportedThrough(before, after, keys - remaining, paths) && InOrder(paths) && PrintsAs(changes, prefix, paths)
      decreases remaining
    {
      var key := FirstKey(remaining);
      var path := Extended(prefix, key);
      var more: seq<string>;
      ghost var inner: seq<seq<string>>;
      if key !in before.fields || key !in after.fields {
        more, inner := [path], [[]];
      } else {
        more := ChangedPaths(before.fields[key], after.fields[key], path);
        inner :| ReportOf(before.fields[key], after.fields[key], inner) && PrintsAs(more, path, inner);
      }
      AppendThrough(before, after, prefix, keys - remaining, key, changes, paths, more, inner);
      assert keys - (remaining - {key}) == keys - remaining + {key};
      remaining := remaining - {key};
      changes, paths := changes + more, paths + Through(key, inner);
    }
    AllThrough(before, after, paths);
    assert ReportOf(before, after, paths);
  }

  lemma AllThrough(before: Json, after: Json, paths: seq<seq<string>>)
    requires before.Obj? && after.Obj? && ReportedThrough(before, after, before.fields.Keys + after.fields.Keys, paths)
    ensures forall p :: p in paths <==> Reported(before, after, p)
  {
    assert !Reported(before, after, []);
  }

  // One turn of the loop.
  lemma AppendThrough(before: Json, after: Json, prefix: string, done: set<string>, key: string,
                      changes: seq<string>, paths: seq<seq<string>>, more: seq<string>, inner: seq<seq<string>>)
    requires before.Obj? && after.Obj? && (key in before.fields || key in after.fields) && key !in done
    requires forall k | k in done :: Before(k, key)
    requires ReportedThrough(before, after, done, paths) && InOrder(paths) && PrintsAs(changes, prefix, paths)
    requires if key in before.fields && key in after.fields then
               (forall p :: p in inner <==> Reported(before.fields[key], after.fields[key], p)) && InOrder(inner)
             else inner == [[]]
    requires PrintsAs(more, Extended(prefix, key), inner)
    ensures ReportedThrough(before, after, done + {key}, paths + Through(key, inner))
    ensures InOrder(paths + Through(key, inner)) && PrintsAs(changes + more, prefix, paths + Through(key, inner))
  {
    ReportedMore(before, after, done, key, paths, inner);
    ThroughPrints(prefix, key, more, inner);
    PrintsMore(prefix, changes, paths, more, Through(key, inner));
    hide Reported, PathBefore, Through, PrintsAs;
    ThroughInOrder(key, paths, inner);
  }

  lemma ReportedMore(before: Json, after: Json, done: set<string>, key: string, paths: seq<seq<string>>, inner: seq<seq<string>>)
    requires before.Obj? && after.Obj? && (key in before.fields || key in after.fields)
    requires ReportedThrough(before, after, done, paths)
    requires if key in before.fields && key in after.fields then
               forall p :: p in inner <==> Reported(before.fields[key], after.fields[key], p)
             else inner == [[]]
    ensures ReportedThrough(before, after, done + {key}, paths + Through(key, inner))
  {
    ThroughIs(before, after, key, inner);
    hide Reported, Through;
    assert forall p :: p in paths + Through(key, inner) <==> p in paths || p in Through(key, inner);
  }

  lemma PrintsMore(prefix: string, changes: seq<string>, paths: seq<seq<string>>, more: seq<string>, through: seq<seq<string>>)
    requires PrintsAs(changes, prefix, paths) && PrintsAs(more, prefix, through)
    ensures PrintsAs(changes + more, prefix, paths + through)
  {
    hide PrintedFrom;
  }

  lemma ThroughPrints(prefix: string, key: string, more: seq<string>, inner: seq<seq<string>>)
    requires PrintsAs(more, Extended(prefix, key), inner)
    ensures PrintsAs(more, prefix, Through(key, inner))
  {
    var through := Through(key, inner);
    forall i | 0 <= i < |inner|
      ensures more[i] == PrintedFrom(prefix, through[i])
    {
      assert through[i][1..] == inner[i];
    }
  }

  ghost function Through(key: string, inner: seq<seq<string>>): (paths: seq<seq<string>>)
    ensures |paths| == |inner| && forall i | 0 <= i < |inner| :: paths[i] == [key] + inner[i]
  {
    seq(|inner|, i requires 0 <= i < |inner| => [key] + inner[i])
  }

  // The paths reported below a key.
  lemma ThroughIs(before: Json, after: Json, key: string, inner: seq<seq<string>>)
    requires before.Obj? && after.Obj? && (key in before.fields || key in after.fields)
    requires if key in before.fields && key in after.fields then
               forall p :: p in inner <==> Reported(before.fields[key], after.fields[key], p)
             else inner == [[]]
    ensures forall p :: p in Through(key, inner) <==> p != [] && p[0] == key && Reported(before, after, p)
  {
    var paths := Through(key, inner);
    forall p
      ensures p in paths <==> p != [] && p[0] == key && Reported(before, after, p)
    {
      if p in paths {
        var i :| 0 <= i < |paths| && paths[i] == p;
        assert p[1..] == inner[i] && inner[i] in inner;
      }
      if p != [] && p[0] == key && Reported(before, after, p) {
        assert p == [key] + p[1..];
        if !(key in before.fields && key in after.fields) { assert p[1..] == []; }
        assert p[1..] in inner;
        var i :| 0 <= i < |inner| && inner[i] == p[1..];
        assert paths[i] == p;
      }
    }
  }

  lemma ThroughInOrder(key: string, paths: seq<seq<string>>, inner: seq<seq<string>>)
    requires InOrder(paths) && (InOrder(inner) || |inner| == 1)
    requires forall p | p in paths :: p != [] && p[0] != key && Before(p[0], key)
    ensures InOrder(paths + Through(key, inner))
  {
    var all := paths + Through(key, inner);
    forall i, j | 0 <= i < j < |all|
      ensures PathBefore(all[i], all[j])
    {
      if i < |paths| {
        assert paths[i] in paths;
      } else {
        var p, q := inner[i - |paths|], inner[j - |paths|];
        assert all[i][1..] == p && all[j][1..] == q && PathBefore(p, q);
      }
    }
  }

  /****** When two paths print alike ******/

  // What a report can still tell of a path: its keys split at dots, without the empty
  // keys it starts with.
  function Pieces(path: seq<string>): seq<string> {
    if path == [] then [] else if path[0] == "" then Pieces(path[1..]) else AllPieces(path)
  }

  function AllPieces(path: seq<string>): seq<string> {
    if path == [] then [] else Split(path[0], '.') + AllPieces(path[1..])
  }

  lemma {:induction false} PrintedJoins(prefix: string, path: seq<string>)
    requires prefix != "" && path != []
    ensures PrintedFrom(prefix, path) == prefix + "." + Join(path, '.')
    decreases |path|
  {
    if |path| == 1 {
      assert path[1..] == [];
    } else {
      PrintedJoins(prefix + "." + path[0], path[1..]);
      assert [path[0]] + path[1..] == path;
    }
  }

  lemma {:induction false} JoinedPieces(path: seq<string>)
    requires path != []
    ensures Split(Join(path, '.'), '.') == AllPieces(path)
  {
    if |path| == 1 {
      assert path[1..] == [];
    } else {
      JoinedPieces(path[1..]);
      SplitAppend(path[0], Join(path[1..], '.'), '.');
    }
  }

  // The printed text and the pieces determine each other.
  lemma {:induction false} PrintedPieces(path: seq<string>)
    ensures PrintedFrom("", path) == if Pieces(path) == [] then "" else Join(Pieces(path), '.')
    ensures Pieces(path) == if PrintedFrom("", path) == "" then [] else Split(PrintedFrom("", path), '.')
  {
    if path != [] {
      if path[0] == "" {
        PrintedPieces(path[1..]);
      } else {
        var text := Join(path, '.');
        if |path| == 1 { assert path[1..] == []; } else { PrintedJoins(path[0], path[1..]); }
        assert PrintedFrom("", path) == text != "";
        JoinedPieces(path);
        JoinSplit(text, '.');
      }
    }
  }

  // Two paths are printed alike exactly when their pieces are the same.
  lemma PrintedAlike(p: seq<string>, q: seq<string>)
    ensures PrintedFrom("", p) == PrintedFrom("", q) <==> Pieces(p) == Pieces(q)
  {
    PrintedPieces(p);
    PrintedPieces(q);
  }

  predicate PlainKeys(path: seq<string>) {
    forall key | key in path :: key != "" && '.' !in key
  }

  lemma {:induction false} PlainPieces(path: seq<string>)
    requires PlainKeys(path)
    ensures Pieces(path) == path && AllPieces(path) == path
  {
    if path != [] {
      assert path[0] in path && forall key | key in path[1..] :: key in path;
      PlainPieces(path[1..]);
      SplitPlain(path[0], '.');
      assert path == [path[0]] + path[1..];
    }
  }

  // So paths without empty or dotted keys are told apart.
  lemma PrintedOnce(p: seq<string>, q: seq<string>)
    requires PlainKeys(p) && PlainKeys(q) && PrintedFrom("", p) == PrintedFrom("", q)
    ensures p == q
  {
    PrintedAlike(p, q);
    PlainPieces(p);
    PlainPieces(q);
  }

  // Others are not: one change of two values that is printed as the same text twice,
  // because of a dot in a key ...
  lemma DottedKeysAreAmbiguous()
    ensures var before := Obj(map["a" := Obj(map["b" := Null]), "a.b" := Null]);
            var after := Obj(map["a" := Obj(map[])]);
            && Reported(before, after, ["a", "b"]) && Reported(before, after, ["a.b"])
            && PrintedFrom("", ["a", "b"]) == PrintedFrom("", ["a.b"])
  {
    assert ["a", "b"][1..] == ["b"] && ["b"][1..] == [] && ["a.b"][1..] == [];
    assert PrintedFrom("a", ["b"]) == PrintedFrom("a" + "." + "b", []);
    assert "a" + "." + "b" == "a.b" && |"a.b"| != |"a"|;
  }

  // ... or because of an empty one.
  lemma EmptyKeysAreAmbiguous()
    ensures var before := Obj(map["" := Obj(map["a" := Null]), "a" := Null]);
            var after := Obj(map["" := Obj(map[])]);
            && Reported(before, after, ["", "a"]) && Reported(before, after, ["a"])
            && PrintedFrom("", ["", "a"]) == PrintedFrom("", ["a"])
  {
    assert ["", "a"][1..] == ["a"] && ["a"][1..] == [] && |"a"| != |""|;
  }
}
