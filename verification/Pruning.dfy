/**
  The component closure of a scoped OpenAPI document: which component pointers are reachable from
  the chosen paths, and the pruned document built by inserting each of them.
 */
module Pruning {
  import opened Prelude
  import opened JsonPointer

  datatype Json = Obj(fields: map<string, Json>) | Arr(items: seq<Json>) | Str(text: string) | Other(value: int)

  // ---------------------------------------------------------------------------------------
  // References

  function Refs(v: Json): set<string>
    decreases v, 0
  {
    match v
    case Obj(fields) => set k, r | k in fields && r in FieldRefs(k, fields[k]) :: r
    case Arr(items) => set i, r | 0 <= i < |items| && r in Refs(items[i]) :: r
    case _ => {}
  }

  /** A `$ref` that names a component is a reference; anything else is searched. */
  function FieldRefs(key: string, v: Json): set<string>
    decreases v, 1
  {
    if key == "$ref" && v.Str? && IsComponentRef(v.text) then {v.text} else Refs(v)
  }

  lemma {:induction false} RefsAreComponents(v: Json, r: string)
    requires r in Refs(v)
    ensures IsComponentRef(r)
    decreases v
  {
    match v
    case Obj(fields) =>
      var k :| k in fields && r in FieldRefs(k, fields[k]);
      if r in Refs(fields[k]) {
        RefsAreComponents(fields[k], r);
      }
    case Arr(items) =>
      var i :| 0 <= i < |items| && r in Refs(items[i]);
      RefsAreComponents(items[i], r);
    case _ =>
  }

  // ---------------------------------------------------------------------------------------
  // Resolving and inserting

  function Resolve(doc: Json, keys: seq<string>): Option<Json> {
    if keys == [] then Some(doc)
    else if !doc.Obj? || keys[0] !in doc.fields then None
    else Resolve(doc.fields[keys[0]], keys[1..])
  }

  method ResolvePointer(doc: Json, pointer: string) returns (r: Option<Json>)
    ensures r == Resolve(doc, Keys(pointer))
  {
    var keys := Keys(pointer);
    var current := doc;
    var i := 0;
    while i < |keys|
      invariant 0 <= i <= |keys|
      invariant Resolve(doc, keys) == Resolve(current, keys[i..])
    {
      if !current.Obj? || keys[i] !in current.fields {
        return None;
      }
      assert keys[i..][1..] == keys[i + 1..];
      current := current.fields[keys[i]];
      i := i + 1;
    }
    r := Some(current);
  }

  /** Put a value at a key path, creating objects on the way; none when the way leads through a non-object. */
  function Insert(doc: Json, keys: seq<string>, value: Json): Option<Json>
    decreases |keys|
  {
    if keys == [] then Some(value)
    else if !doc.Obj? then None
    else
      var child := if keys[0] in doc.fields then doc.fields[keys[0]] else Obj(map[]);
      var inner := Insert(child, keys[1..], value);
      if inner.None? then None else Some(Obj(doc.fields[keys[0] := inner.value]))
  }

  /** Keys and values of `part` all come from `whole`. */
  ghost predicate PartOf(part: Json, whole: Json)
    decreases part
  {
    || part == whole
    || (part.Obj? && whole.Obj?
        && forall k :: k in part.fields ==> k in whole.fields && PartOf(part.fields[k], whole.fields[k]))
  }

  /** Putting back what is already there changes nothing. */
  lemma {:induction false} InsertSame(doc: Json, keys: seq<string>, value: Json)
    requires Resolve(doc, keys) == Some(value)
    ensures Insert(doc, keys, value) == Some(doc)
    decreases |keys|
  {
    if keys != [] {
      InsertSame(doc.fields[keys[0]], keys[1..], value);
      assert doc.fields[keys[0] := doc.fields[keys[0]]] == doc.fields;
    }
  }

  /** Copying a value of the whole to its own place in a part always works and stays a part. */
  lemma {:induction false} InsertWorks(part: Json, whole: Json, keys: seq<string>, value: Json)
    requires PartOf(part, whole) && Resolve(whole, keys) == Some(value)
    ensures Insert(part, keys, value).Some?
    ensures PartOf(Insert(part, keys, value).value, whole)
    ensures Resolve(Insert(part, keys, value).value, keys) == Some(value)
    decreases |keys|
  {
    if part == whole {
      InsertSame(part, keys, value);
    } else if keys != [] {
      var child := if keys[0] in part.fields then part.fields[keys[0]] else Obj(map[]);
      assert Resolve(whole.fields[keys[0]], keys[1..]) == Some(value);
      if keys[1..] == [] {
        assert Insert(child, keys[1..], value) == Some(value);
      } else {
        assert whole.fields[keys[0]].Obj?;
        InsertWorks(child, whole.fields[keys[0]], keys[1..], value);
      }
    }
  }

  /** It also keeps every other value already copied, wherever the two places lie. */
  lemma {:induction false} InsertKeeps(part: Json, whole: Json, keys: seq<string>, value: Json, other: seq<string>)
    requires PartOf(part, whole) && Resolve(whole, keys) == Some(value)
    requires Resolve(part, other).Some? && Resolve(part, other) == Resolve(whole, other)
    ensures Insert(part, keys, value).Some?
    ensures Resolve(Insert(part, keys, value).value, other) == Resolve(whole, other)
    decreases |keys|
  {
    InsertWorks(part, whole, keys, value);
    if part == whole {
      InsertSame(part, keys, value);
    } else if keys != [] && other != [] && keys[0] == other[0] {
      InsertKeeps(part.fields[keys[0]], whole.fields[keys[0]], keys[1..], value, other[1..]);
    }
  }

  predicate Prefix(a: seq<string>, b: seq<string>) {
    |a| <= |b| && a == b[..|a|]
  }

  predicate Related(a: seq<string>, b: seq<string>) {
    Prefix(a, b) || Prefix(b, a)
  }

  /** A place that did not exist before lies on the way to the inserted value or inside it. */
  lemma {:induction false} InsertAddsOnlyThere(part: Json, keys: seq<string>, value: Json, place: seq<string>)
    requires Insert(part, keys, value).Some?
    requires Resolve(Insert(part, keys, value).value, place).Some?
    ensures Resolve(part, place).Some? || Related(place, keys)
    decreases |keys|
  {
    if keys != [] && place != [] && keys[0] == place[0] {
      var child := if keys[0] in part.fields then part.fields[keys[0]] else Obj(map[]);
      InsertAddsOnlyThere(child, keys[1..], value, place[1..]);
      if Related(place[1..], keys[1..]) {
        RelatedDeeper(place, keys);
      }
    }
  }

  lemma RelatedDeeper(a: seq<string>, b: seq<string>)
    requires a != [] && b != [] && a[0] == b[0] && Related(a[1..], b[1..])
    ensures Related(a, b)
  {
    assert a == [a[0]] + a[1..] && b == [b[0]] + b[1..];
    if Prefix(a[1..], b[1..]) {
      assert b[..|a|] == [b[0]] + b[1..][..|a| - 1];
    } else {
      assert a[..|b|] == [a[0]] + a[1..][..|b| - 1];
    }
  }

  /** References inside a part of a document are references of the document. */
  lemma {:induction false} RefsOfResolved(doc: Json, keys: seq<string>, r: string)
    requires Resolve(doc, keys).Some? && r in Refs(Resolve(doc, keys).value)
    ensures r in Refs(doc)
    decreases |keys|
  {
    if keys != [] {
      var child := doc.fields[keys[0]];
      RefsOfResolved(child, keys[1..], r);
      assert r in FieldRefs(keys[0], child);
    }
  }

  // ---------------------------------------------------------------------------------------
  // Reachability

  /** Reachable from the paths through at most `steps` components. */
  ghost predicate ReachedIn(source: Json, paths: Json, r: string, steps: nat)
    decreases steps
  {
    || r in Refs(paths)
    || (steps > 0 && exists q :: ReachedIn(source, paths, q, steps - 1) && Follows(source, q, r))
  }

  /** The component at q refers to r. */
  predicate Follows(source: Json, q: string, r: string) {
    Resolve(source, Keys(q)).Some? && r in Refs(Resolve(source, Keys(q)).value)
  }

  ghost predicate Reachable(source: Json, paths: Json, r: string) {
    exists steps: nat :: ReachedIn(source, paths, r, steps)
  }

  lemma ReachedNext(source: Json, paths: Json, q: string, r: string)
    requires Reachable(source, paths, q) && Follows(source, q, r)
    ensures Reachable(source, paths, r)
  {
    var steps: nat :| ReachedIn(source, paths, q, steps);
    assert ReachedIn(source, paths, r, steps + 1);
  }

  /** A set that holds the first references and is closed under following them holds every reachable one. */
  lemma {:induction false} ClosedHoldsReached(source: Json, paths: Json, s: set<string>, r: string, steps: nat)
    requires Refs(paths) <= s && forall q, t :: q in s && Follows(source, q, t) ==> t in s
    requires ReachedIn(source, paths, r, steps)
    ensures r in s
    decreases steps
  {
    if r !in Refs(paths) {
      var q :| ReachedIn(source, paths, q, steps - 1) && Follows(source, q, r);
      ClosedHoldsReached(source, paths, s, q, steps - 1);
    }
  }

  lemma {:induction false} ReachedIsRef(source: Json, paths: Json, r: string, steps: nat)
    requires ReachedIn(source, paths, r, steps)
    ensures r in Refs(paths) + Refs(source)
  {
    if r !in Refs(paths) {
      var q :| ReachedIn(source, paths, q, steps - 1) && Follows(source, q, r);
      RefsOfResolved(source, Keys(q), r);
    }
  }

  // ---------------------------------------------------------------------------------------
  // The worklist

  /** Every listed place is copied, and nothing lies off the way to, or inside, a listed place. */
  ghost predicate Copied(source: Json, pruned: Json, places: set<seq<string>>) {
    && PartOf(pruned, source) && pruned.Obj?
    && (forall v :: v in places ==> Resolve(source, v).Some? && Resolve(pruned, v) == Resolve(source, v))
    && (forall place :: Resolve(pruned, place).Some? ==> place == [] || OnTheWay(place, places))
  }

  ghost predicate OnTheWay(place: seq<string>, places: set<seq<string>>) {
    exists v :: v in places && Related(place, v)
  }

  lemma CopyOne(source: Json, pruned: Json, places: set<seq<string>>, keys: seq<string>, value: Json)
    requires Copied(source, pruned, places) && Resolve(source, keys) == Some(value) && keys != []
    ensures Insert(pruned, keys, value).Some?
    ensures Copied(source, Insert(pruned, keys, value).value, places + {keys})
  {
    InsertWorks(pruned, source, keys, value);
    var after := Insert(pruned, keys, value).value;
    forall v | v in places ensures Resolve(after, v) == Resolve(source, v) {
      InsertKeeps(pruned, source, keys, value, v);
    }
    forall place | Resolve(after, place).Some? && place != [] ensures OnTheWay(place, places + {keys}) {
      InsertAddsOnlyThere(pruned, keys, value, place);
      if Related(place, keys) {
        assert keys in places + {keys};
      } else {
        var v :| v in places && Related(place, v);
        assert v in places + {keys};
      }
    }
  }

  ghost predicate WorkInvariant(source: Json, paths: Json, pending: seq<string>, visited: set<string>) {
    && (forall r :: r in pending || r in visited ==> Reachable(source, paths, r))
    && (forall r :: r in Refs(paths) ==> r in pending || r in visited)
    && (forall q, r :: q in visited && Follows(source, q, r) ==> r in pending || r in visited)
  }

  method SetToSeq(s: set<string>) returns (r: seq<string>)
    ensures forall x :: x in r <==> x in s
  {
    r := [];
    var rest := s;
    while rest != {}
      invariant rest <= s
      invariant forall x :: x in r <==> x in s && x !in rest
      decreases rest
    {
      var x :| x in rest;
      r := r + [x];
      rest := rest - {x};
    }
  }

  lemma TakeOne(source: Json, paths: Json, pending: seq<string>, visited: set<string>, more: seq<string>)
    requires pending != [] && WorkInvariant(source, paths, pending, visited)
    requires Resolve(source, Keys(pending[|pending| - 1])).Some?
    requires forall r :: r in more <==>
               r in Refs(Resolve(source, Keys(pending[|pending| - 1])).value) - (visited + {pending[|pending| - 1]})
    ensures WorkInvariant(source, paths, pending[..|pending| - 1] + more, visited + {pending[|pending| - 1]})
  {
    var pointer := pending[|pending| - 1];
    assert pending == pending[..|pending| - 1] + [pointer];
    assert pointer in pending;
    forall r | r in more ensures Reachable(source, paths, r) {
      ReachedNext(source, paths, pointer, r);
    }
  }

  lemma SkipOne(source: Json, paths: Json, pending: seq<string>, visited: set<string>)
    requires pending != [] && WorkInvariant(source, paths, pending, visited) && pending[|pending| - 1] in visited
    ensures WorkInvariant(source, paths, pending[..|pending| - 1], visited)
  {
    assert pending == pending[..|pending| - 1] + [pending[|pending| - 1]];
  }

  ghost function Places(visited: set<string>): set<seq<string>> {
    set p | p in visited :: Keys(p)
  }

  /** Visit one new pointer: copy its component and queue the references it makes. */
  method Visit(source: Json, paths: Json, pruned: Json, pending: seq<string>, visited: set<string>)
    returns (r: Option<(Json, seq<string>)>)
    requires pending != [] && WorkInvariant(source, paths, pending, visited)
    requires Copied(source, pruned, Places(visited))
    ensures r.None? <==> Resolve(source, Keys(pending[|pending| - 1])).None?
    ensures r.Some? ==> WorkInvariant(source, paths, r.value.1, visited + {pending[|pending| - 1]})
    ensures r.Some? ==> Copied(source, r.value.0, Places(visited + {pending[|pending| - 1]}))
  {
    var pointer := pending[|pending| - 1];
    var component := ResolvePointer(source, pointer);
    if component.None? {
      return None;
    }
    var keys := Keys(pointer);
    CopyOne(source, pruned, Places(visited), keys, component.value);
    MorePlaces(visited, pointer);
    var more := SetToSeq(Refs(component.value) - (visited + {pointer}));
    TakeOne(source, paths, pending, visited, more);
    r := Some((Insert(pruned, keys, component.value).value, pending[..|pending| - 1] + more));
  }

  lemma MorePlaces(visited: set<string>, pointer: string)
    ensures Places(visited + {pointer}) == Places(visited) + {Keys(pointer)}
  {
  }

  /** The components the chosen paths need, or a reachable pointer that leads nowhere. */
  method PrunedComponents(source: Json, paths: Json) returns (r: Result<Json, string>, visited: set<string>)
    requires source.Obj?
    ensures r.Err? ==> Reachable(source, paths, r.error) && Resolve(source, Keys(r.error)).None?
    ensures r.Ok? ==> forall p :: p in visited <==> Reachable(source, paths, p)
    ensures r.Ok? ==> forall p :: p in visited ==>
              Resolve(source, Keys(p)).Some? && Resolve(r.value, Keys(p)[1..]) == Resolve(source, Keys(p))
    ensures r.Ok? ==> exists pruned :: ComponentsOf(r.value, pruned) && Copied(source, pruned, Places(visited))
  {
    var pruned := Obj(map[]);
    visited := {};
    var pending := SetToSeq(Refs(paths));
    assert forall p :: p in Refs(paths) ==> ReachedIn(source, paths, p, 0);
    while pending != []
      invariant WorkInvariant(source, paths, pending, visited)
      invariant Copied(source, pruned, Places(visited))
      invariant visited <= Refs(paths) + Refs(source)
      decreases Refs(paths) + Refs(source) - visited, |pending|
    {
      var pointer := pending[|pending| - 1];
      assert pointer in pending;
      if pointer in visited {
        SkipOne(source, paths, pending, visited);
        pending := pending[..|pending| - 1];
        continue;
      }
      InUniverse(source, paths, pointer);
      var step := Visit(source, paths, pruned, pending, visited);
      if step.None? {
        return Err(pointer), visited;
      }
      pruned, pending := step.value.0, step.value.1;
      visited := visited + {pointer};
    }
    VisitedIsReachable(source, paths, visited);
    var components := if COMPONENTS in pruned.fields then pruned.fields[COMPONENTS] else Obj(map[]);
    assert ComponentsOf(components, pruned);
    forall p | p in visited
      ensures Resolve(source, Keys(p)).Some? && Resolve(components, Keys(p)[1..]) == Resolve(source, Keys(p))
    {
      ComponentsResolve(source, paths, components, pruned, visited, p);
    }
    r := Ok(components);
  }

  predicate ComponentsOf(components: Json, pruned: Json) {
    pruned.Obj? && components == if COMPONENTS in pruned.fields then pruned.fields[COMPONENTS] else Obj(map[])
  }

  lemma InUniverse(source: Json, paths: Json, p: string)
    requires Reachable(source, paths, p)
    ensures p in Refs(paths) + Refs(source)
  {
    var steps: nat :| ReachedIn(source, paths, p, steps);
    ReachedIsRef(source, paths, p, steps);
  }

  lemma VisitedIsReachable(source: Json, paths: Json, visited: set<string>)
    requires WorkInvariant(source, paths, [], visited)
    ensures forall p :: p in visited <==> Reachable(source, paths, p)
  {
    forall p | Reachable(source, paths, p) ensures p in visited {
      var steps: nat :| ReachedIn(source, paths, p, steps);
      ClosedHoldsReached(source, paths, visited, p, steps);
    }
  }

  /** In the components returned, every visited pointer resolves as it does in the source. */
  lemma ComponentsResolve(source: Json, paths: Json, components: Json, pruned: Json, visited: set<string>, pointer: string)
    requires Copied(source, pruned, Places(visited)) && ComponentsOf(components, pruned)
    requires pointer in visited && Reachable(source, paths, pointer)
    ensures Resolve(source, Keys(pointer)).Some?
    ensures Resolve(components, Keys(pointer)[1..]) == Resolve(source, Keys(pointer))
  {
    InUniverse(source, paths, pointer);
    if pointer in Refs(paths) {
      RefsAreComponents(paths, pointer);
    } else {
      RefsAreComponents(source, pointer);
    }
    ComponentKeys(pointer);
    ResolveBelow(source, pruned, Places(visited), Keys(pointer));
  }

  lemma ResolveBelow(source: Json, pruned: Json, places: set<seq<string>>, keys: seq<string>)
    requires Copied(source, pruned, places) && keys in places && keys != []
    ensures Resolve(source, keys).Some?
    ensures keys[0] in pruned.fields && Resolve(pruned.fields[keys[0]], keys[1..]) == Resolve(source, keys)
  {
  }

  /** Every place of a part exists in the whole; where it holds no object it holds the same value. */
  lemma {:induction false} NothingNew(part: Json, whole: Json, place: seq<string>)
    requires PartOf(part, whole) && Resolve(part, place).Some?
    ensures Resolve(whole, place).Some?
    ensures !Resolve(part, place).value.Obj? ==> Resolve(part, place) == Resolve(whole, place)
    decreases |place|
  {
    if place != [] && part != whole {
      NothingNew(part.fields[place[0]], whole.fields[place[0]], place[1..]);
    }
  }
}
