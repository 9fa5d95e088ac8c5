/**
 * The parameter document written to `params-file.json`: flat
 * `(dotted.key, value)` pairs nested by splitting each key on `.`, values
 * collected into lists, and single-element lists unwrapped afterwards.
 *
 * The document is described path by path: `KindAt(d, path)` says whether
 * `path` leads to nothing, to an object, to a list or to a single value.
 */
module ParamsDoc {
  import opened Wrappers
  import Paths

  /** A JSON value as the builder produces it. */
  datatype Doc<V> = Object(kids: map<string, Doc<V>>) | List(vals: seq<V>) | Scalar(v: V)

  /** What a document holds at one path. */
  datatype Kind<V> = Absent | Inner | Values(vals: seq<V>) | Single(v: V)

  predicate IsLeaf<V>(k: Kind<V>) {
    k.Values? || k.Single?
  }

  /** The sub-document reached by following `path` from `d`. */
  function Get<V>(d: Doc<V>, path: seq<string>): Option<Doc<V>>
    decreases |path|
  {
    if path == [] then Some(d)
    else match d
      case Object(kids) => if path[0] in kids then Get(kids[path[0]], path[1..]) else None
      case _ => None
  }

  function KindOf<V>(d: Doc<V>): Kind<V> {
    match d
    case Object(_) => Inner
    case List(vs) => Values(vs)
    case Scalar(v) => Single(v)
  }

  function KindAt<V>(d: Doc<V>, path: seq<string>): Kind<V> {
    match Get(d, path)
    case None => Absent
    case Some(n) => KindOf(n)
  }

  lemma KindAtCons<V>(kids: map<string, Doc<V>>, k: string, x: seq<string>)
    ensures KindAt(Object(kids), [k] + x) == if k in kids then KindAt(kids[k], x) else Absent
  {
    assert ([k] + x)[0] == k && ([k] + x)[1..] == x;
  }

  lemma KindAtBelowLeaf<V>(d: Doc<V>, x: seq<string>)
    requires !d.Object? && x != []
    ensures KindAt(d, x) == Absent
  {
  }

  // ---------------------------------------------------------------------
  // Building: the first loop, one (key, value) pair at a time.
  // ---------------------------------------------------------------------

  /**
   * Add `v` at `path` under the object with children `kids`: descend with
   * `setdefault(step, {})`, then `setdefault(last, []).append(v)`. `None`
   * when the descent meets a list, or the last step meets an object (the
   * `AttributeError` the source raises).
   */
  function Insert<V>(kids: map<string, Doc<V>>, path: seq<string>, v: V): Option<map<string, Doc<V>>>
    requires |path| >= 1
    decreases |path|
  {
    var k := path[0];
    if |path| == 1 then
      if k !in kids then Some(kids[k := List([v])])
      else match kids[k]
        case List(vs) => Some(kids[k := List(vs + [v])])
        case _ => None
    else
      var child := if k in kids then kids[k] else Object(map[]);
      match child
      case Object(ck) =>
        (match Insert(ck, path[1..], v)
         case None => None
         case Some(ck2) => Some(kids[k := Object(ck2)]))
      case _ => None
  }

  /** A strict non-empty prefix of `p` is a leaf, or `p` itself is not a list. */
  ghost predicate Blocked<V>(d: Doc<V>, p: seq<string>) {
    (exists i :: 1 <= i < |p| && IsLeaf(KindAt(d, p[..i]))) || KindAt(d, p).Inner? || KindAt(d, p).Single?
  }

  function ListOrEmpty<V>(k: Kind<V>): seq<V> {
    if k.Values? then k.vals else []
  }

  /** The document after the insertion, path by path. */
  ghost function AfterInsert<V>(d: Doc<V>, p: seq<string>, v: V, q: seq<string>): Kind<V> {
    if q == p then Values(ListOrEmpty(KindAt(d, p)) + [v])
    else if q < p then Inner
    else KindAt(d, q)
  }

  /**
   * Insertion fails exactly when the path is blocked; when it succeeds the
   * value is appended to the list at `path`, every strict prefix is an
   * object, and every other path is unchanged.
   */
  lemma {:induction false} InsertSpec<V>(kids: map<string, Doc<V>>, p: seq<string>, v: V)
    requires |p| >= 1
    ensures Insert(kids, p, v).Some? <==> !Blocked(Object(kids), p)
    ensures Insert(kids, p, v).Some? ==>
      forall q :: KindAt(Object(Insert(kids, p, v).value), q) == AfterInsert(Object(kids), p, v, q)
    decreases |p|
  {
    var d := Object(kids);
    var k := p[0];
    var rest := p[1..];
    assert p == [k] + rest;
    KindAtCons(kids, k, rest);
    if |p| == 1 {
      assert rest == [];
      var r := Insert(kids, p, v);
      if r.Some? {
        var kids2 := r.value;
        forall q ensures KindAt(Object(kids2), q) == AfterInsert(d, p, v, q) {
          if q != [] {
            var x := q[1..];
            assert q == [q[0]] + x;
            KindAtCons(kids2, q[0], x);
            KindAtCons(kids, q[0], x);
            if q[0] == k && x != [] {
              KindAtBelowLeaf(kids2[k], x);
              if k in kids { KindAtBelowLeaf(kids[k], x); }
              assert !(q < p);
            }
          }
        }
      }
    } else {
      if k in kids && !kids[k].Object? {
        assert p[..1] == [k] == [k] + [];
        KindAtCons(kids, k, []);
        assert IsLeaf(KindAt(d, p[..1]));
      } else {
        var ck := if k in kids then kids[k].kids else map[];
        InsertSpec(ck, rest, v);
        assert Insert(kids, p, v).Some? <==> Insert(ck, rest, v).Some?;
        KindAtBlockedShift(kids, ck, k, rest);
        if Insert(kids, p, v).Some? {
          var kids2 := Insert(kids, p, v).value;
          var ck2 := Insert(ck, rest, v).value;
          assert kids2 == kids[k := Object(ck2)];
          forall q ensures KindAt(Object(kids2), q) == AfterInsert(d, p, v, q) {
            if q != [] {
              var x := q[1..];
              assert q == [q[0]] + x;
              KindAtCons(kids2, q[0], x);
              KindAtCons(kids, q[0], x);
              if q[0] == k {
                assert KindAt(Object(kids2), q) == AfterInsert(Object(ck), rest, v, x);
                assert (q == p) == (x == rest);
                assert (q < p) == (x < rest) || x == [] by {
                  if x == [] { assert q < p; }
                  if x < rest { assert q < p; }
                  if q < p && x != [] { assert x == p[1..|q|]; }
                }
                if k !in kids && x != [] {
                  assert KindAt(Object(ck), x) == Absent;
                }
              } else {
                assert !(q < p) && q != p;
              }
            }
          }
        }
      }
    }
  }

  /** Blocking one level down is blocking at the top, shifted by one step. */
  lemma KindAtBlockedShift<V>(kids: map<string, Doc<V>>, ck: map<string, Doc<V>>, k: string, rest: seq<string>)
    requires |rest| >= 1
    requires k in kids ==> kids[k] == Object(ck)
    requires k !in kids ==> ck == map[]
    ensures Blocked(Object(kids), [k] + rest) <==> Blocked(Object(ck), rest)
  {
    var p := [k] + rest;
    var d := Object(kids);
    forall i | 1 <= i < |rest|
      ensures KindAt(d, p[..i + 1]) == KindAt(Object(ck), rest[..i])
    {
      assert p[..i + 1] == [k] + rest[..i];
      KindAtCons(kids, k, rest[..i]);
    }
    KindAtCons(kids, k, rest);
    assert p[..1] == [k] == [k] + [];
    KindAtCons(kids, k, []);
    assert !IsLeaf(KindAt(d, p[..1]));
    if (exists i :: 1 <= i < |p| && IsLeaf(KindAt(d, p[..i]))) {
      var i :| 1 <= i < |p| && IsLeaf(KindAt(d, p[..i]));
      assert i >= 2;
      assert IsLeaf(KindAt(Object(ck), rest[..i - 1]));
    }
    if (exists i :: 1 <= i < |rest| && IsLeaf(KindAt(Object(ck), rest[..i]))) {
      var i :| 1 <= i < |rest| && IsLeaf(KindAt(Object(ck), rest[..i]));
      assert IsLeaf(KindAt(d, p[..i + 1]));
    }
  }

  // ---------------------------------------------------------------------
  // What the whole pair list should produce.
  // ---------------------------------------------------------------------

  /** The path of a parameter key: `key.split('.')`. */
  function KeyPath(key: string): (p: seq<string>)
    ensures |p| >= 1
  {
    Paths.Split(key, '.')
  }

  /** Some pair's key splits to `q`. */
  ghost predicate IsKeyPath<V>(ps: seq<(string, V)>, q: seq<string>) {
    exists i :: 0 <= i < |ps| && KeyPath(ps[i].0) == q
  }

  /** `q` is a strict prefix of some pair's key path. */
  ghost predicate UnderKey<V>(ps: seq<(string, V)>, q: seq<string>) {
    exists i :: 0 <= i < |ps| && q < KeyPath(ps[i].0)
  }

  /** No key path is a strict prefix of another: no key is both a leaf and a branch. */
  ghost predicate PrefixFree<V>(ps: seq<(string, V)>) {
    forall i, j :: 0 <= i < |ps| && 0 <= j < |ps| ==> !(KeyPath(ps[i].0) < KeyPath(ps[j].0))
  }

  /** The values of the pairs whose key splits to `q`, in pair order. */
  function ValuesAt<V>(ps: seq<(string, V)>, q: seq<string>): seq<V>
    decreases |ps|
  {
    if ps == [] then []
    else ValuesAt(ps[..|ps| - 1], q) + (if KeyPath(ps[|ps| - 1].0) == q then [ps[|ps| - 1].1] else [])
  }

  /** The values of the pairs with key `key`, in pair order. */
  function ValuesOfKey<V>(ps: seq<(string, V)>, key: string): seq<V>
    decreases |ps|
  {
    if ps == [] then []
    else ValuesOfKey(ps[..|ps| - 1], key) + (if ps[|ps| - 1].0 == key then [ps[|ps| - 1].1] else [])
  }

  /** Expected content of the document before unwrapping. */
  ghost function Collected<V>(ps: seq<(string, V)>, q: seq<string>): Kind<V> {
    if IsKeyPath(ps, q) then Values(ValuesAt(ps, q))
    else if q == [] || UnderKey(ps, q) then Inner
    else Absent
  }

  /** The second pass: a list of exactly one value becomes that value. */
  function Unwrapped<V>(k: Kind<V>): Kind<V> {
    if k.Values? && |k.vals| == 1 then Single(k.vals[0]) else k
  }

  /** Expected content of the finished document. */
  ghost function Expected<V>(ps: seq<(string, V)>, q: seq<string>): Kind<V> {
    Unwrapped(Collected(ps, q))
  }

  ghost predicate Describes<V>(d: Doc<V>, ps: seq<(string, V)>) {
    forall q :: KindAt(d, q) == Collected(ps, q)
  }

  /** The first loop as a function: the children of the root after all pairs. */
  function Build<V>(ps: seq<(string, V)>): Option<map<string, Doc<V>>>
    decreases |ps|
  {
    if ps == [] then Some(map[])
    else match Build(ps[..|ps| - 1])
      case None => None
      case Some(kids) => Insert(kids, KeyPath(ps[|ps| - 1].0), ps[|ps| - 1].1)
  }

  lemma ValuesAtNonEmpty<V>(ps: seq<(string, V)>, q: seq<string>)
    ensures ValuesAt(ps, q) != [] <==> IsKeyPath(ps, q)
  {
    if ps != [] {
      var init := ps[..|ps| - 1];
      ValuesAtNonEmpty(init, q);
      assert forall i :: 0 <= i < |init| ==> init[i] == ps[i];
      if IsKeyPath(ps, q) && KeyPath(ps[|ps| - 1].0) != q {
        var i :| 0 <= i < |ps| && KeyPath(ps[i].0) == q;
        assert i < |init| && KeyPath(init[i].0) == q;
      }
    }
  }

  /** In a described document, the new key is blocked exactly when it clashes with an earlier key. */
  lemma BlockedIffClash<V>(d: Doc<V>, ps: seq<(string, V)>, key: string, v: V)
    requires PrefixFree(ps) && Describes(d, ps)
    ensures Blocked(d, KeyPath(key)) <==> !PrefixFree(ps + [(key, v)])
  {
    if Blocked(d, KeyPath(key)) {
      BlockedClashes(d, ps, key, v);
    } else {
      UnblockedStaysPrefixFree(d, ps, key, v);
    }
  }

  /** A blocked key path is a strict prefix or a strict extension of an earlier key path. */
  lemma BlockedClashes<V>(d: Doc<V>, ps: seq<(string, V)>, key: string, v: V)
    requires Describes(d, ps) && Blocked(d, KeyPath(key))
    ensures !PrefixFree(ps + [(key, v)])
  {
    var ps2 := ps + [(key, v)];
    var p := KeyPath(key);
    assert ps2[|ps|] == (key, v);
    if exists i :: 1 <= i < |p| && IsLeaf(KindAt(d, p[..i])) {
      var i :| 1 <= i < |p| && IsLeaf(KindAt(d, p[..i]));
      assert KindAt(d, p[..i]) == Collected(ps, p[..i]);
      assert IsKeyPath(ps, p[..i]);
      var j :| 0 <= j < |ps| && KeyPath(ps[j].0) == p[..i];
      assert ps2[j] == ps[j];
      assert KeyPath(ps2[j].0) < KeyPath(ps2[|ps|].0);
    } else {
      assert KindAt(d, p) == Collected(ps, p);
      assert UnderKey(ps, p);
      var j :| 0 <= j < |ps| && p < KeyPath(ps[j].0);
      assert ps2[j] == ps[j];
      assert KeyPath(ps2[|ps|].0) < KeyPath(ps2[j].0);
    }
  }

  /** A key path that is not blocked keeps the key paths free of strict prefixes. */
  lemma UnblockedStaysPrefixFree<V>(d: Doc<V>, ps: seq<(string, V)>, key: string, v: V)
    requires PrefixFree(ps) && Describes(d, ps) && !Blocked(d, KeyPath(key))
    ensures PrefixFree(ps + [(key, v)])
  {
    var ps2 := ps + [(key, v)];
    var p := KeyPath(key);
    assert forall i :: 0 <= i < |ps| ==> ps2[i] == ps[i];
    assert ps2[|ps|] == (key, v);
    forall i, j | 0 <= i < |ps2| && 0 <= j < |ps2|
      ensures !(KeyPath(ps2[i].0) < KeyPath(ps2[j].0))
    {
      if i < |ps| && j == |ps| {
        ShorterKeyBlocks(d, ps, p, i);
      } else if i == |ps| && j < |ps| {
        assert p < KeyPath(ps[j].0) ==> UnderKey(ps, p);
        assert KindAt(d, p) == Collected(ps, p);
      }
    }
  }

  /** An earlier key whose path is a strict prefix of `p` blocks `p`. */
  lemma ShorterKeyBlocks<V>(d: Doc<V>, ps: seq<(string, V)>, p: seq<string>, i: nat)
    requires Describes(d, ps) && i < |ps|
    ensures KeyPath(ps[i].0) < p ==> Blocked(d, p)
  {
    var r := KeyPath(ps[i].0);
    if r < p {
      assert r == p[..|r|];
      assert IsKeyPath(ps, r);
      assert KindAt(d, r) == Collected(ps, r);
    }
  }

  /** Appending a pair changes the expected content only along its key path. */
  lemma CollectedAppend<V>(ps: seq<(string, V)>, key: string, v: V, q: seq<string>)
    requires PrefixFree(ps + [(key, v)])
    ensures var p := KeyPath(key);
      Collected(ps + [(key, v)], q) ==
        if q == p then Values(ListOrEmpty(Collected(ps, p)) + [v])
        else if q < p then Inner
        else Collected(ps, q)
  {
    if q < KeyPath(key) {
      NoKeyBelowLastKey(ps, key, v, q);
    }
    CollectedAppendCases(ps, key, v, q);
  }

  lemma CollectedAppendCases<V>(ps: seq<(string, V)>, key: string, v: V, q: seq<string>)
    requires q < KeyPath(key) ==> !IsKeyPath(ps, q)
    ensures var p := KeyPath(key);
      Collected(ps + [(key, v)], q) ==
        if q == p then Values(ListOrEmpty(Collected(ps, p)) + [v])
        else if q < p then Inner
        else Collected(ps, q)
  {
    var ps2 := ps + [(key, v)];
    var p := KeyPath(key);
    IsKeyPathAppend(ps, key, v, q);
    UnderKeyAppend(ps, key, v, q);
    ValuesAtAppend(ps, key, v, q);
    if q == p {
      ValuesAtNonEmpty(ps, q);
      assert Collected(ps2, q) == Values(ValuesAt(ps, q) + [v]);
    } else if q < p {
      assert Collected(ps2, q) == Inner;
    } else {
      assert Collected(ps2, q) == Collected(ps, q);
    }
  }

  /** Without strict prefixes, no earlier key path lies strictly above the new one. */
  lemma NoKeyBelowLastKey<V>(ps: seq<(string, V)>, key: string, v: V, q: seq<string>)
    requires PrefixFree(ps + [(key, v)]) && q < KeyPath(key)
    ensures !IsKeyPath(ps, q)
  {
    var ps2 := ps + [(key, v)];
    forall m | 0 <= m < |ps|
      ensures KeyPath(ps[m].0) != q
    {
      assert ps2[m] == ps[m] && ps2[|ps|] == (key, v);
      assert !(KeyPath(ps2[m].0) < KeyPath(ps2[|ps|].0));
    }
  }

  /** Appending a pair adds its key path. */
  lemma IsKeyPathAppend<V>(ps: seq<(string, V)>, key: string, v: V, q: seq<string>)
    ensures IsKeyPath(ps + [(key, v)], q) <==> IsKeyPath(ps, q) || KeyPath(key) == q
  {
    var ps2 := ps + [(key, v)];
    assert ps2[|ps|] == (key, v);
    if IsKeyPath(ps2, q) && KeyPath(key) != q {
      var m :| 0 <= m < |ps2| && KeyPath(ps2[m].0) == q;
      assert m < |ps| && ps2[m] == ps[m];
    }
    if IsKeyPath(ps, q) {
      var m :| 0 <= m < |ps| && KeyPath(ps[m].0) == q;
      assert ps2[m] == ps[m];
    }
  }

  /** Appending a pair adds the strict prefixes of its key path. */
  lemma UnderKeyAppend<V>(ps: seq<(string, V)>, key: string, v: V, q: seq<string>)
    ensures UnderKey(ps + [(key, v)], q) <==> UnderKey(ps, q) || q < KeyPath(key)
  {
    var ps2 := ps + [(key, v)];
    assert ps2[|ps|] == (key, v);
    if UnderKey(ps2, q) && !(q < KeyPath(key)) {
      var m :| 0 <= m < |ps2| && q < KeyPath(ps2[m].0);
      assert m < |ps| && ps2[m] == ps[m];
    }
    if UnderKey(ps, q) {
      var m :| 0 <= m < |ps| && q < KeyPath(ps[m].0);
      assert ps2[m] == ps[m];
    }
  }

  /** Appending a pair adds its value after the earlier ones at its key path. */
  lemma ValuesAtAppend<V>(ps: seq<(string, V)>, key: string, v: V, q: seq<string>)
    ensures ValuesAt(ps + [(key, v)], q) == ValuesAt(ps, q) + if KeyPath(key) == q then [v] else []
  {
    assert (ps + [(key, v)])[..|ps|] == ps;
  }

  /**
   * One step of the first loop: appending a pair keeps the document
   * described by the pairs seen so far, and fails exactly when the new key
   * breaks prefix-freedom.
   */
  lemma {:induction false} BuildStep<V>(ps: seq<(string, V)>, key: string, v: V)
    requires Build(ps).Some? && PrefixFree(ps) && Describes(Object(Build(ps).value), ps)
    ensures var ps2 := ps + [(key, v)];
      (Build(ps2).Some? <==> PrefixFree(ps2)) &&
      (Build(ps2).Some? ==> Describes(Object(Build(ps2).value), ps2))
  {
    var ps2 := ps + [(key, v)];
    var p := KeyPath(key);
    var kids := Build(ps).value;
    assert ps2[..|ps2| - 1] == ps;
    assert ps2[|ps2| - 1] == (key, v);
    assert Build(ps2) == Insert(kids, p, v);
    InsertSpec(kids, p, v);
    BlockedIffClash(Object(kids), ps, key, v);
    if Build(ps2).Some? {
      var kids2 := Build(ps2).value;
      forall q ensures KindAt(Object(kids2), q) == Collected(ps2, q) {
        CollectedAppend(ps, key, v, q);
      }
    }
  }

  /**
   * The first loop succeeds exactly for prefix-free pairs, and then the
   * document holds at each key path the list of that key's values, objects
   * at the strict prefixes of key paths, and nothing anywhere else.
   */
  lemma {:induction false} BuildSpec<V>(ps: seq<(string, V)>)
    ensures Build(ps).Some? <==> PrefixFree(ps)
    ensures Build(ps).Some? ==> Describes(Object(Build(ps).value), ps)
    decreases |ps|
  {
    if ps == [] {
      var empty: map<string, Doc<V>> := map[];
      forall q ensures KindAt(Object(empty), q) == Collected(ps, q) {
        if q != [] { assert q == [q[0]] + q[1..]; KindAtCons(empty, q[0], q[1..]); }
      }
    } else {
      var init := ps[..|ps| - 1];
      BuildSpec(init);
      assert ps == init + [ps[|ps| - 1]];
      if Build(init).Some? {
        BuildStep(init, ps[|ps| - 1].0, ps[|ps| - 1].1);
      } else {
        assert !PrefixFree(init);
        var i, j :| 0 <= i < |init| && 0 <= j < |init| && KeyPath(init[i].0) < KeyPath(init[j].0);
        assert ps[i] == init[i] && ps[j] == init[j];
      }
    }
  }

  // ---------------------------------------------------------------------
  // Unwrapping: the second loop, over the leaves in first-insertion order.
  // ---------------------------------------------------------------------

  /** Replace the sub-document at `p` by `x` (`node[param_key] = ...`). */
  function SetAt<V>(d: Doc<V>, p: seq<string>, x: Doc<V>): Doc<V>
    decreases |p|
  {
    if p == [] then x
    else match d
      case Object(kids) =>
        if p[0] in kids then Object(kids[p[0] := SetAt(kids[p[0]], p[1..], x)]) else d
      case _ => d
  }

  /** Overwriting a list by a single value changes that path only. */
  lemma {:induction false} SetAtSpec<V>(d: Doc<V>, p: seq<string>, x: V, q: seq<string>)
    requires KindAt(d, p).Values?
    ensures KindAt(SetAt(d, p, Scalar(x)), q) == if q == p then Single(x) else KindAt(d, q)
    decreases |p|
  {
    if p == [] {
      if q != [] { KindAtBelowLeaf(d, q); }
    } else {
      var kids := d.kids;
      var k := p[0];
      assert p == [k] + p[1..];
      KindAtCons(kids, k, p[1..]);
      var kids2 := kids[k := SetAt(kids[k], p[1..], Scalar(x))];
      if q != [] {
        assert q == [q[0]] + q[1..];
        KindAtCons(kids, q[0], q[1..]);
        KindAtCons(kids2, q[0], q[1..]);
        if q[0] == k {
          SetAtSpec(kids[k], p[1..], x, q[1..]);
        }
      }
    }
  }

  /**
   * The first loop over `variable_params`: nest every pair, and record in
   * `leaves` each key path the first time it is added. Fails with the key
   * whose insertion meets a list or an object (the source's
   * `AttributeError`), which happens exactly for keys that are not
   * prefix-free.
   */
  method NestParams<V(==)>(params: seq<(string, V)>)
    returns (r: Result<map<string, Doc<V>>, string>, leaves: seq<seq<string>>)
    ensures r.Ok? <==> PrefixFree(params)
    ensures r.Ok? ==> Describes(Object(r.value), params)
    ensures r.Ok? ==> forall q :: q in leaves <==> IsKeyPath(params, q)
    ensures forall a, b :: 0 <= a < b < |leaves| ==> leaves[a] != leaves[b]
    ensures r.Err? ==> exists i :: 0 <= i < |params| && params[i].0 == r.error
                                  && PrefixFree(params[..i]) && !PrefixFree(params[..i + 1])
  {
    var root: map<string, Doc<V>> := map[];
    leaves := [];
    BuildSpec(params[..0]);
    var i := 0;
    while i < |params|
      invariant 0 <= i <= |params|
      invariant Build(params[..i]) == Some(root)
      invariant PrefixFree(params[..i]) && Describes(Object(root), params[..i])
      invariant forall q :: q in leaves <==> IsKeyPath(params[..i], q)
      invariant forall a, b :: 0 <= a < b < |leaves| ==> leaves[a] != leaves[b]
    {
      var key := params[i].0;
      var path := Paths.Split(key, '.');
      var addToLeaves := KindAt(Object(root), path).Absent?;
      var next := Insert(root, path, params[i].1);
      NestStep(params, i, root);
      if next.None? {
        return Err(key), leaves;
      }
      KeyPathsGrow(params, i);
      root := next.value;
      if addToLeaves {
        leaves := leaves + [path];
      }
      i := i + 1;
    }
    assert params[..i] == params;
    r := Ok(root);
  }

  /** What one iteration of the first loop achieves, given the state before it. */
  lemma NestStep<V>(ps: seq<(string, V)>, i: nat, root: map<string, Doc<V>>)
    requires i < |ps|
    requires Build(ps[..i]) == Some(root)
    requires PrefixFree(ps[..i]) && Describes(Object(root), ps[..i])
    ensures var next := Insert(root, KeyPath(ps[i].0), ps[i].1);
      Build(ps[..i + 1]) == next &&
      (next.Some? <==> PrefixFree(ps[..i + 1])) &&
      (next.Some? ==> Describes(Object(next.value), ps[..i + 1])) &&
      (next.Some? ==> (KindAt(Object(root), KeyPath(ps[i].0)).Absent? <==> !IsKeyPath(ps[..i], KeyPath(ps[i].0))))
  {
    var path := KeyPath(ps[i].0);
    assert ps[..i + 1] == ps[..i] + [ps[i]];
    assert ps[..i + 1][..i] == ps[..i];
    BuildStep(ps[..i], ps[i].0, ps[i].1);
    ValuesAtNonEmpty(ps[..i], path);
    InsertSpec(root, path, ps[i].1);
  }

  lemma KeyPathsGrow<V>(ps: seq<(string, V)>, i: nat)
    requires i < |ps|
    ensures forall q :: IsKeyPath(ps[..i + 1], q) <==> IsKeyPath(ps[..i], q) || q == KeyPath(ps[i].0)
  {
    forall q | IsKeyPath(ps[..i + 1], q) ensures IsKeyPath(ps[..i], q) || q == KeyPath(ps[i].0) {
      var m :| 0 <= m < i + 1 && KeyPath(ps[..i + 1][m].0) == q;
      if m < i { assert ps[..i][m] == ps[..i + 1][m]; }
    }
    forall q | IsKeyPath(ps[..i], q) ensures IsKeyPath(ps[..i + 1], q) {
      var m :| 0 <= m < i && KeyPath(ps[..i][m].0) == q;
      assert ps[..i + 1][m] == ps[..i][m];
    }
    assert ps[..i + 1][i] == ps[i];
    assert IsKeyPath(ps[..i + 1], KeyPath(ps[i].0));
  }

  /**
   * The second loop over `leaves`: every leaf list of exactly one value is
   * replaced by that value; nothing else changes.
   */
  method UnwrapLeaves<V>(d: Doc<V>, leaves: seq<seq<string>>) returns (doc: Doc<V>)
    requires forall q :: KindAt(d, q).Values? <==> q in leaves
    requires forall q :: !KindAt(d, q).Single?
    requires forall a, b :: 0 <= a < b < |leaves| ==> leaves[a] != leaves[b]
    ensures forall q :: KindAt(doc, q) == Unwrapped(KindAt(d, q))
  {
    doc := d;
    var j := 0;
    while j < |leaves|
      invariant 0 <= j <= |leaves|
      invariant forall q :: KindAt(doc, q) == if q in leaves[..j] then Unwrapped(KindAt(d, q)) else KindAt(d, q)
    {
      var p := leaves[j];
      assert p !in leaves[..j] by {
        assert forall a :: 0 <= a < j ==> leaves[..j][a] == leaves[a];
      }
      var node := Get(doc, p);
      if node.Some? && node.value.List? && |node.value.vals| == 1 {
        var x := node.value.vals[0];
        forall q ensures KindAt(SetAt(doc, p, Scalar(x)), q) == if q == p then Single(x) else KindAt(doc, q) {
          SetAtSpec(doc, p, x, q);
        }
        doc := SetAt(doc, p, Scalar(x));
      }
      assert leaves[..j + 1] == leaves[..j] + [p];
      j := j + 1;
    }
    assert leaves[..j] == leaves;
  }

  /**
   * `validation_params_dict`: nest the pairs, then unwrap single values.
   * Succeeds exactly for prefix-free keys, and then the document holds at
   * every path what `Expected` says.
   */
  method BuildDocument<V(==)>(params: seq<(string, V)>) returns (r: Result<Doc<V>, string>)
    ensures r.Ok? <==> PrefixFree(params)
    ensures r.Ok? ==> forall q :: KindAt(r.value, q) == Expected(params, q)
    ensures r.Err? ==> exists i :: 0 <= i < |params| && params[i].0 == r.error
                                  && PrefixFree(params[..i]) && !PrefixFree(params[..i + 1])
  {
    var nested, leaves := NestParams(params);
    if nested.Err? {
      return Err(nested.error);
    }
    var d := Object(nested.value);
    forall q ensures KindAt(d, q).Values? <==> q in leaves {
      ValuesAtNonEmpty(params, q);
    }
    var doc := UnwrapLeaves(d, leaves);
    r := Ok(doc);
  }

  /** Prefix-freedom is inherited by every prefix of the pair list. */
  lemma PrefixFreeShrinks<V>(ps: seq<(string, V)>, n: nat)
    requires n <= |ps|
    ensures PrefixFree(ps) ==> PrefixFree(ps[..n])
  {
    if PrefixFree(ps) {
      forall a, b | 0 <= a < n && 0 <= b < n ensures !(KeyPath(ps[..n][a].0) < KeyPath(ps[..n][b].0)) {
        assert ps[..n][a] == ps[a] && ps[..n][b] == ps[b];
      }
    }
  }

  /** Collecting by key path is collecting by key: keys split injectively. */
  lemma {:induction false} ValuesAtKey<V>(ps: seq<(string, V)>, key: string)
    ensures ValuesAt(ps, KeyPath(key)) == ValuesOfKey(ps, key)
    decreases |ps|
  {
    if ps != [] {
      ValuesAtKey(ps[..|ps| - 1], key);
      if KeyPath(ps[|ps| - 1].0) == KeyPath(key) {
        Paths.SplitInjective(ps[|ps| - 1].0, key, '.');
      }
    }
  }

  /**
   * The document's content at a key that occurs: its single value when the
   * key occurred once, otherwise the list of its values in order.
   */
  lemma LeafAtKey<V>(ps: seq<(string, V)>, key: string)
    requires exists i :: 0 <= i < |ps| && ps[i].0 == key
    ensures var vals := ValuesOfKey(ps, key);
      |vals| >= 1 &&
      Expected(ps, KeyPath(key)) == if |vals| == 1 then Single(vals[0]) else Values(vals)
  {
    var i :| 0 <= i < |ps| && ps[i].0 == key;
    assert IsKeyPath(ps, KeyPath(key)) by { assert KeyPath(ps[i].0) == KeyPath(key); }
    ValuesAtKey(ps, key);
    ValuesAtNonEmpty(ps, KeyPath(key));
  }

  lemma ExampleKeyPaths()
    ensures KeyPath("a.b") == ["a", "b"] && KeyPath("a.c") == ["a", "c"] && KeyPath("d") == ["d"]
  {
    Paths.SplitAtSep("a", "b", '.');
    Paths.SplitNoSep("b", '.');
    Paths.SplitAtSep("a", "c", '.');
    Paths.SplitNoSep("c", '.');
    Paths.SplitNoSep("d", '.');
    assert "a" + "." + "b" == "a.b" && "a" + "." + "c" == "a.c";
  }

  lemma ExampleValues()
    ensures var ps := [("a.b", "1"), ("a.c", "2"), ("d", "3")];
      ValuesAt(ps, ["a", "b"]) == ["1"] && ValuesAt(ps, ["a", "c"]) == ["2"] && ValuesAt(ps, ["d"]) == ["3"]
  {
    ExampleKeyPaths();
    var x, y, z := ("a.b", "1"), ("a.c", "2"), ("d", "3");
    ValuesAtOfThree(x, y, z, ["a", "b"]);
    ValuesAtOfThree(x, y, z, ["a", "c"]);
    ValuesAtOfThree(x, y, z, ["d"]);
  }

  /** The values at `q` of three pairs, taken one pair at a time. */
  lemma ValuesAtOfThree<V>(x: (string, V), y: (string, V), z: (string, V), q: seq<string>)
    ensures ValuesAt([x, y, z], q) ==
      (if KeyPath(x.0) == q then [x.1] else []) +
      (if KeyPath(y.0) == q then [y.1] else []) +
      (if KeyPath(z.0) == q then [z.1] else [])
  {
    assert ValuesAt([x], q) == (if KeyPath(x.0) == q then [x.1] else []) by {
      assert [x][..0] == [];
    }
    assert ValuesAt([x, y], q) == ValuesAt([x], q) + (if KeyPath(y.0) == q then [y.1] else []) by {
      assert [x, y][..1] == [x];
    }
    assert ValuesAt([x, y, z], q) == ValuesAt([x, y], q) + (if KeyPath(z.0) == q then [z.1] else []) by {
      assert [x, y, z][..2] == [x, y];
    }
  }

  lemma ExamplePrefixFree()
    ensures PrefixFree([("a.b", "1"), ("a.c", "2"), ("d", "3")])
  {
    var ps := [("a.b", "1"), ("a.c", "2"), ("d", "3")];
    ExampleKeyPaths();
    forall i, j | 0 <= i < |ps| && 0 <= j < |ps|
      ensures !(KeyPath(ps[i].0) < KeyPath(ps[j].0))
    {
      assert |KeyPath(ps[i].0)| >= |KeyPath(ps[j].0)| || KeyPath(ps[i].0)[0] != KeyPath(ps[j].0)[0];
    }
  }

  lemma ExampleLeaves()
    ensures var ps := [("a.b", "1"), ("a.c", "2"), ("d", "3")];
      Expected(ps, ["a", "b"]) == Single("1") &&
      Expected(ps, ["a", "c"]) == Single("2") &&
      Expected(ps, ["d"]) == Single("3")
  {
    var ps := [("a.b", "1"), ("a.c", "2"), ("d", "3")];
    ExampleKeyPaths();
    ExampleValues();
    assert IsKeyPath(ps, ["a", "b"]) by { assert KeyPath(ps[0].0) == ["a", "b"]; }
    assert IsKeyPath(ps, ["a", "c"]) by { assert KeyPath(ps[1].0) == ["a", "c"]; }
    assert IsKeyPath(ps, ["d"]) by { assert KeyPath(ps[2].0) == ["d"]; }
  }

  lemma ExampleBranches()
    ensures var ps := [("a.b", "1"), ("a.c", "2"), ("d", "3")];
      Expected(ps, ["a"]) == Inner && Expected(ps, ["b"]) == Absent
  {
    var ps := [("a.b", "1"), ("a.c", "2"), ("d", "3")];
    ExampleKeyPaths();
    assert UnderKey(ps, ["a"]) by { assert ["a"] < KeyPath(ps[0].0); }
    forall i | 0 <= i < |ps|
      ensures KeyPath(ps[i].0) != ["a"] && KeyPath(ps[i].0) != ["b"] && !(["b"] < KeyPath(ps[i].0))
    {
      assert KeyPath(ps[i].0)[0] != "b";
    }
    assert !IsKeyPath(ps, ["a"]) && !IsKeyPath(ps, ["b"]) && !UnderKey(ps, ["b"]);
  }

  /** `[("a.b", "1"), ("a.c", "2"), ("d", "3")]` gives `{"a": {"b": "1", "c": "2"}, "d": "3"}`. */
  lemma NestingExample()
    ensures var ps := [("a.b", "1"), ("a.c", "2"), ("d", "3")];
      PrefixFree(ps) &&
      Expected(ps, ["a", "b"]) == Single("1") &&
      Expected(ps, ["a", "c"]) == Single("2") &&
      Expected(ps, ["d"]) == Single("3") &&
      Expected(ps, ["a"]) == Inner &&
      Expected(ps, ["b"]) == Absent
  {
    ExamplePrefixFree();
    ExampleLeaves();
    ExampleBranches();
  }
}
