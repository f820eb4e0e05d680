/** A model of `cloneDeep` from test/utils/helper.ts: the deep copy of a
    JavaScript value that the test suite hands to the parser, so that the
    parser's in-place rewriting of a schema never touches the shared fixture.

    JavaScript objects live on a heap, so the model does too: an `Obj` holds
    the object's own enumerable keys in `Object.keys` order and its property
    map. The `Tree` that `TreeOf` reads off the heap is a deep-equality
    view. On trees with no `OtherObject` node (the plain data a JSON or YAML
    parser yields), equal trees are `deep.equal` in chai's sense, up to `-0`
    and array length. An `OtherObject` such as a Date shows only its own
    enumerable keys, so two different Dates have the same tree. */
module Helper {

  /** What `Array.isArray` and `typeof` tell apart among objects. */
  datatype Kind =
    | PlainObject      // `{}` and other plain objects
    | ArrayObject      // `Array.isArray(value)`
    | FunctionObject   // `typeof value === 'function'`
    | OtherObject      // any other object: a Date, a Buffer, a class instance

  /** A JavaScript value: a primitive, or a reference to an object. */
  datatype Value =
    | Undefined
    | Null
    | Bool(b: bool)
    | Num(n: real)
    | Str(s: string)
    | Ref(obj: Obj)

  /** A heap object: its own enumerable keys in `Object.keys` order, and the
      value stored under each of them. */
  class Obj {
    const kind: Kind
    var keys: seq<string>
    var props: map<string, Value>

    /** The keys are distinct and are exactly the keys of the property map. */
    ghost predicate WellFormed()
      reads this
    {
      (forall i, j :: 0 <= i < j < |keys| ==> keys[i] != keys[j]) &&
      (forall k :: k in props <==> k in keys)
    }

    /** A fresh, empty object (`{}`) or array (`[]`). */
    constructor (kind: Kind)
      ensures this.kind == kind && keys == [] && props == map[]
      ensures WellFormed()
    {
      this.kind := kind;
      keys := [];
      props := map[];
    }

    /** The property assignment `this[key] = val`: a new key goes after the
        keys already present, an existing key keeps its place. */
    method Put(key: string, val: Value)
      requires WellFormed()
      modifies this
      ensures WellFormed()
      ensures props == old(props)[key := val]
      ensures keys == if key in old(props) then old(keys) else old(keys) + [key]
    {
      if key !in props {
        keys := keys + [key];
      }
      props := props[key := val];
    }
  }

  /** `value && typeof value === 'object'`: the values `cloneDeep` copies.
      `null` is not a reference here, and a function's `typeof` is
      `'function'`, so both are returned as they are. */
  predicate IsContainer(v: Value) {
    v.Ref? && v.obj.kind != FunctionObject
  }

  /** JavaScript's `typeof`; note that `typeof null` is `'object'`. */
  function TypeOf(v: Value): string {
    match v
    case Undefined => "undefined"
    case Null => "object"
    case Bool(_) => "boolean"
    case Num(_) => "number"
    case Str(_) => "string"
    case Ref(o) => if o.kind == FunctionObject then "function" else "object"
  }

  /** JavaScript truthiness: `undefined`, `null`, `false`, `0` and `''` are
      falsy, every object is truthy. */
  predicate Truthy(v: Value) {
    match v
    case Undefined => false
    case Null => false
    case Bool(b) => b
    case Num(n) => n != 0.0
    case Str(s) => s != ""
    case Ref(_) => true
  }

  /** `IsContainer` is the source's test `value && typeof value === 'object'`:
      `null` passes `typeof` but fails truthiness, a function fails `typeof`,
      and every other object passes both. */
  lemma IsContainerIsObjectTest(v: Value)
    ensures IsContainer(v) <==> Truthy(v) && TypeOf(v) == "object"
  {
  }

  /** The kind of the copy: `Array.isArray(value) ? [] : {}`. */
  function ClonedKind(k: Kind): (r: Kind)
    ensures r == ArrayObject <==> k == ArrayObject
    ensures r != FunctionObject && r != OtherObject
  {
    if k == ArrayObject then ArrayObject else PlainObject
  }

  /** Deep-equality view of a value: primitives and functions are compared as
      they are (functions by identity), objects by kind and by their entries,
      in key order. */
  datatype Tree =
    | Leaf(v: Value)
    | Node(kind: Kind, entries: seq<(string, Tree)>)

  // ---------------------------------------------------------------------
  // Acyclic object graphs
  // ---------------------------------------------------------------------

  /** A container value is one of the given objects. */
  ghost predicate Rooted(v: Value, nodes: set<Obj>) {
    IsContainer(v) ==> v.obj in nodes
  }

  /** A container value is one of the given objects and ranks below `bound`. */
  ghost predicate Below(v: Value, nodes: set<Obj>, rank: map<Obj, nat>, bound: nat) {
    IsContainer(v) ==> v.obj in nodes && v.obj in rank && rank[v.obj] < bound
  }

  /** `o` is well formed, ranked, and every container it holds is one of
      `nodes` and ranks strictly below it. */
  ghost predicate Sound(o: Obj, nodes: set<Obj>, rank: map<Obj, nat>)
    reads o
  {
    o in rank && o.WellFormed() &&
    forall k :: k in o.props ==> Below(o.props[k], nodes, rank, rank[o])
  }

  /** `rank` witnesses that the object graph on `nodes` is closed and acyclic:
      every container an object holds is in `nodes` and ranks strictly below
      it. This is what `cloneDeep` needs to terminate, since it recurses once
      per entry and keeps no set of visited objects. */
  ghost predicate Ranked(nodes: set<Obj>, rank: map<Obj, nat>)
    reads nodes
  {
    nodes <= rank.Keys &&
    forall o {:trigger Sound(o, nodes, rank)} :: o in nodes ==> Sound(o, nodes, rank)
  }

  ghost function RankOf(v: Value, rank: map<Obj, nat>): nat {
    if IsContainer(v) && v.obj in rank then rank[v.obj] + 1 else 0
  }

  /** The deep-equality view of `v` in the current heap. */
  ghost function TreeOf(v: Value, nodes: set<Obj>, rank: map<Obj, nat>): Tree
    requires Ranked(nodes, rank) && Rooted(v, nodes)
    reads nodes
    decreases RankOf(v, rank), 1, 0
  {
    if IsContainer(v) then
      Node(v.obj.kind, EntriesOf(v.obj, |v.obj.keys|, nodes, rank))
    else
      Leaf(v)
  }

  /** The views of the first `n` entries of `o`, in key order. */
  ghost function EntriesOf(o: Obj, n: nat, nodes: set<Obj>, rank: map<Obj, nat>): seq<(string, Tree)>
    requires Ranked(nodes, rank) && o in nodes && n <= |o.keys|
    reads nodes
    decreases rank[o] + 1, 0, n
  {
    if n == 0 then []
    else
      assert Sound(o, nodes, rank) && o.keys[n - 1] in o.props;
      EntriesOf(o, n - 1, nodes, rank) + [(o.keys[n - 1], TreeOf(o.props[o.keys[n - 1]], nodes, rank))]
  }

  /** The view of the first `n` entries has `n` entries. */
  lemma {:induction false} EntriesLength(o: Obj, n: nat, nodes: set<Obj>, rank: map<Obj, nat>)
    requires Ranked(nodes, rank) && o in nodes && n <= |o.keys|
    ensures |EntriesOf(o, n, nodes, rank)| == n
  {
    if n > 0 {
      EntriesLength(o, n - 1, nodes, rank);
    }
  }

  /** Entry `j` of the view of `o` is key `j` with the view of its value. */
  lemma {:induction false} EntriesAt(o: Obj, n: nat, nodes: set<Obj>, rank: map<Obj, nat>, j: nat)
    requires Ranked(nodes, rank) && o in nodes && j < n <= |o.keys|
    ensures Sound(o, nodes, rank) && o.keys[j] in o.props
    ensures |EntriesOf(o, n, nodes, rank)| == n
    ensures EntriesOf(o, n, nodes, rank)[j] == (o.keys[j], TreeOf(o.props[o.keys[j]], nodes, rank))
  {
    assert Sound(o, nodes, rank);
    if j < n - 1 {
      EntriesAt(o, n - 1, nodes, rank, j);
    } else if n > 1 {
      EntriesAt(o, n - 1, nodes, rank, 0);
    }
  }

  /** `parent[key]` is the container `child`. */
  ghost predicate Holds(parent: Obj, key: string, child: Obj)
    reads parent
  {
    key in parent.props && parent.props[key] == Ref(child) && child.kind != FunctionObject
  }

  /** A cycle of containers, each held by the one before it, cannot be ranked:
      the precondition of `CloneDeep` rules out every input on which
      `cloneDeep` would recurse forever. */
  lemma {:induction false} CycleNotRanked(nodes: set<Obj>, rank: map<Obj, nat>, path: seq<Obj>, keys: seq<string>)
    requires |path| >= 2 && |keys| == |path| - 1 && path[0] == path[|path| - 1]
    requires path[0] in nodes && path[0].kind != FunctionObject
    requires forall i :: 0 <= i < |keys| ==> Holds(path[i], keys[i], path[i + 1])
    ensures !Ranked(nodes, rank)
  {
    if Ranked(nodes, rank) {
      RanksDecreaseAlong(nodes, rank, path, keys, |keys|);
      assert false;
    }
  }

  /** Along a chain of held containers, ranks strictly decrease. */
  lemma {:induction false} RanksDecreaseAlong(nodes: set<Obj>, rank: map<Obj, nat>, path: seq<Obj>, keys: seq<string>, n: nat)
    requires Ranked(nodes, rank)
    requires |keys| == |path| - 1 && 1 <= n <= |keys|
    requires path[0] in nodes
    requires forall i :: 0 <= i < |keys| ==> Holds(path[i], keys[i], path[i + 1])
    ensures path[n] in nodes && path[n] in rank && path[0] in rank && rank[path[n]] + n <= rank[path[0]]
  {
    if n > 1 {
      RanksDecreaseAlong(nodes, rank, path, keys, n - 1);
    }
    var o := path[n - 1];
    assert Holds(o, keys[n - 1], path[n]) && Sound(o, nodes, rank);
    assert Below(o.props[keys[n - 1]], nodes, rank, rank[o]);
  }

  /** The view of a value does not depend on which ranked super-graph it is
      read in. */
  lemma {:induction false} TreeOfFrame(v: Value, nodes: set<Obj>, rank: map<Obj, nat>, nodes': set<Obj>, rank': map<Obj, nat>)
    requires Ranked(nodes, rank) && Ranked(nodes', rank') && nodes <= nodes'
    requires Rooted(v, nodes)
    ensures TreeOf(v, nodes, rank) == TreeOf(v, nodes', rank')
    decreases RankOf(v, rank)
  {
    if IsContainer(v) {
      var o := v.obj;
      var t, t' := TreeOf(v, nodes, rank), TreeOf(v, nodes', rank');
      EntriesLength(o, |o.keys|, nodes, rank);
      EntriesLength(o, |o.keys|, nodes', rank');
      forall j | 0 <= j < |o.keys|
        ensures t.entries[j] == t'.entries[j]
      {
        EntriesAt(o, |o.keys|, nodes, rank, j);
        EntriesAt(o, |o.keys|, nodes', rank', j);
        TreeOfFrame(o.props[o.keys[j]], nodes, rank, nodes', rank');
      }
    }
  }

  // ---------------------------------------------------------------------
  // What a deep clone is
  // ---------------------------------------------------------------------

  /** The deep-equality view of `cloneDeep(x)` in terms of the view of `x`:
      each object becomes an array or a plain object, with the same keys in
      the same order and every entry cloned; everything else is kept. */
  function Cloned(t: Tree): Tree {
    match t
    case Leaf(_) => t
    case Node(k, es) =>
      Node(ClonedKind(k), seq(|es|, i requires 0 <= i < |es| => (es[i].0, Cloned(es[i].1))))
  }

  /** No object in the tree is anything but an array or a plain object: the
      shape of parsed JSON or YAML. */
  predicate Plain(t: Tree) {
    t.Node? ==>
      (t.kind == ArrayObject || t.kind == PlainObject) &&
      forall i :: 0 <= i < |t.entries| ==> Plain(t.entries[i].1)
  }

  /** The clone has the same shape as its input: the same kind of value at
      the top, and for an object the same keys in the same order, each entry
      being the clone of the input's entry. */
  lemma ClonedShape(t: Tree)
    ensures Cloned(t).Leaf? <==> t.Leaf?
    ensures t.Leaf? ==> Cloned(t) == t
    ensures t.Node? ==>
      Cloned(t).kind == ClonedKind(t.kind) &&
      |Cloned(t).entries| == |t.entries| &&
      forall i :: 0 <= i < |t.entries| ==>
        Cloned(t).entries[i].0 == t.entries[i].0 &&
        Cloned(t).entries[i].1 == Cloned(t.entries[i].1)
  {
  }

  /** Every clone is plain: a Date or a class instance comes back as `{}`. */
  lemma {:induction false} ClonedIsPlain(t: Tree)
    ensures Plain(Cloned(t))
  {
    match t
    case Leaf(_) =>
    case Node(k, es) =>
      var c := Cloned(t);
      forall i | 0 <= i < |c.entries|
        ensures Plain(c.entries[i].1)
      {
        ClonedIsPlain(es[i].1);
      }
  }

  /** On plain data (what a JSON or YAML parser produces) the clone is deeply
      equal to the input: the property the object-source tests rely on when
      they dereference `cloneDeep(parsedSchema)` and compare with the
      expected schema. */
  lemma {:induction false} ClonedPlainIsEqual(t: Tree)
    requires Plain(t)
    ensures Cloned(t) == t
  {
    match t
    case Leaf(_) =>
    case Node(k, es) =>
      var c := Cloned(t);
      forall i | 0 <= i < |es|
        ensures c.entries[i] == es[i]
      {
        ClonedPlainIsEqual(es[i].1);
      }
  }

  /** Cloning a clone gives nothing new: `cloneDeep(cloneDeep(x))` is deeply
      equal to `cloneDeep(x)`. */
  lemma ClonedIdempotent(t: Tree)
    ensures Cloned(Cloned(t)) == Cloned(t)
  {
    ClonedIsPlain(t);
    ClonedPlainIsEqual(Cloned(t));
  }

  // ---------------------------------------------------------------------
  // The operation
  // ---------------------------------------------------------------------

  /** `cloneDeep(value)`. The ghost `nodes` and `rank` witness that the
      objects reachable from `v` form an acyclic graph; the ghost results do
      the same for the copy.

      A primitive, `null`, `undefined` or a function is returned as it is.
      An object or array is copied into a fresh object of the cloned kind,
      key by key in `Object.keys` order, each entry cloned in turn. The
      input graph is never written, every container of the copy is new, and
      the copy is deeply equal to `Cloned` of the input. */
  method CloneDeep(v: Value, ghost nodes: set<Obj>, ghost rank: map<Obj, nat>)
    returns (c: Value, ghost cNodes: set<Obj>, ghost cRank: map<Obj, nat>)
    requires Ranked(nodes, rank) && Rooted(v, nodes)
    ensures Ranked(cNodes, cRank) && Rooted(c, cNodes) && cRank.Keys == cNodes
    ensures forall x :: x in cNodes ==> fresh(x)
    ensures unchanged(nodes)
    ensures !IsContainer(v) ==> c == v
    ensures IsContainer(v) ==>
      IsContainer(c) && c.obj.kind == ClonedKind(v.obj.kind) && c.obj.keys == v.obj.keys &&
      cRank[c.obj] == rank[v.obj]
    ensures TreeOf(c, cNodes, cRank) == Cloned(TreeOf(v, nodes, rank))
    decreases RankOf(v, rank), 1
  {
    if !IsContainer(v) {
      return v, {}, map[];
    }
    var o := v.obj;
    var clone := new Obj(ClonedKind(o.kind));
    ghost var done: set<Obj>, doneRank: map<Obj, nat> := {}, map[];
    var keys := o.keys;
    var i := 0;
    while i < |keys|
      invariant 0 <= i <= |keys|
      invariant keys == o.keys
      invariant clone.WellFormed() && clone.keys == o.keys[..i]
      invariant clone !in done && doneRank.Keys == done
      invariant forall x :: x in done ==> fresh(x)
      invariant CopiedUpTo(clone.props, o, i, done, doneRank, nodes, rank)
    {
      ghost var childNodes, childRank := CopyEntry(o, clone, i, done, doneRank, nodes, rank);
      done, doneRank := done + childNodes, doneRank + childRank;
      i := i + 1;
    }
    c := Ref(clone);
    cNodes := done + {clone};
    cRank := doneRank[clone := rank[o]];
    CopiedAll(clone, o, done, doneRank, nodes, rank);
  }

  /** One turn of the loop of `cloneDeep`: `clone[keys[i]] = cloneDeep(value[keys[i]])`. */
  method CopyEntry(o: Obj, clone: Obj, i: nat, ghost done: set<Obj>, ghost doneRank: map<Obj, nat>,
                   ghost nodes: set<Obj>, ghost rank: map<Obj, nat>)
    returns (ghost childNodes: set<Obj>, ghost childRank: map<Obj, nat>)
    requires CopiedUpTo(clone.props, o, i, done, doneRank, nodes, rank)
    requires i < |o.keys| && clone.WellFormed() && clone.keys == o.keys[..i]
    requires clone !in done && clone !in nodes && doneRank.Keys == done
    modifies clone
    ensures clone.WellFormed() && clone.keys == o.keys[..i + 1]
    ensures clone !in done + childNodes && (doneRank + childRank).Keys == done + childNodes
    ensures forall x :: x in childNodes ==> fresh(x)
    ensures CopiedUpTo(clone.props, o, i + 1, done + childNodes, doneRank + childRank, nodes, rank)
    decreases rank[o] + 1, 0
  {
    assert Sound(o, nodes, rank) && o.keys[i] in o.props;
    var child;
    child, childNodes, childRank := CloneDeep(o.props[o.keys[i]], nodes, rank);
    assert o.keys[i] !in clone.props by {
      assert o.WellFormed();
    }
    Store(o, clone, i, child, done, doneRank, childNodes, childRank, nodes, rank);
  }

  /** The assignment `clone[keys[i]] = child` once the child is copied: the
      entries copied so far, now with key `i`, stay copied. */
  method Store(o: Obj, clone: Obj, i: nat, child: Value, ghost done: set<Obj>, ghost doneRank: map<Obj, nat>,
               ghost childNodes: set<Obj>, ghost childRank: map<Obj, nat>,
               ghost nodes: set<Obj>, ghost rank: map<Obj, nat>)
    requires CopiedUpTo(clone.props, o, i, done, doneRank, nodes, rank)
    requires i < |o.keys| && o.keys[i] !in clone.props && clone.WellFormed() && clone.keys == o.keys[..i]
    requires clone !in done && clone !in nodes && clone !in childNodes
    requires doneRank.Keys == done && childRank.Keys == childNodes && done !! childNodes
    requires Ranked(childNodes, childRank)
    requires Below(child, childNodes, childRank, rank[o])
    requires TreeOf(child, childNodes, childRank) == Cloned(TreeOf(o.props[o.keys[i]], nodes, rank))
    modifies clone
    ensures clone.WellFormed() && clone.keys == o.keys[..i + 1]
    ensures CopiedUpTo(clone.props, o, i + 1, done + childNodes, doneRank + childRank, nodes, rank)
  {
    ghost var props' := clone.props[o.keys[i] := child];
    CopiedStep(clone.props, props', o, i, done, doneRank, childNodes, childRank, nodes, rank);
    PutOutside(clone, o.keys[i], child, props', o, i + 1, done + childNodes, doneRank + childRank, nodes, rank);
    PrefixSnoc(o.keys, i);
  }

  /** `clone.Put(key, val)` on an object that is neither the input nor a copied
      entry leaves `CopiedUpTo` as it was. This method only carries that frame
      argument, kept apart so that its proof stays small. */
  method PutOutside(clone: Obj, key: string, val: Value, ghost props: map<string, Value>,
                    o: Obj, i: nat, ghost done: set<Obj>, ghost doneRank: map<Obj, nat>,
                    ghost nodes: set<Obj>, ghost rank: map<Obj, nat>)
    requires clone.WellFormed() && clone != o && clone !in done && clone !in nodes
    requires CopiedUpTo(props, o, i, done, doneRank, nodes, rank)
    modifies clone
    ensures clone.WellFormed() && clone.props == old(clone.props)[key := val]
    ensures clone.keys == if key in old(clone.props) then old(clone.keys) else old(clone.keys) + [key]
    ensures CopiedUpTo(props, o, i, done, doneRank, nodes, rank)
  {
    clone.Put(key, val);
  }

  lemma PrefixSnoc(s: seq<string>, i: nat)
    requires i < |s|
    ensures s[..i + 1] == s[..i] + [s[i]]
  {
  }

  /** The loop invariant of `CloneDeep`: the first `i` keys of `o` are in
      `props`, the property map of the copy, each entry a clone of the
      original entry whose objects are among `done` and rank below `o`. */
  ghost predicate CopiedUpTo(props: map<string, Value>, o: Obj, i: nat, done: set<Obj>, doneRank: map<Obj, nat>,
                             nodes: set<Obj>, rank: map<Obj, nat>)
    reads o, done, nodes
  {
    Ranked(done, doneRank) && Ranked(nodes, rank) && o in nodes && Sound(o, nodes, rank) && IsContainer(Ref(o)) &&
    i <= |o.keys| &&
    forall j :: 0 <= j < i ==>
      o.keys[j] in props && Below(props[o.keys[j]], done, doneRank, rank[o]) &&
      TreeOf(props[o.keys[j]], done, doneRank) == Cloned(TreeOf(o.props[o.keys[j]], nodes, rank))
  }

  /** One turn of the loop in `CloneDeep` keeps `CopiedUpTo`. */
  lemma CopiedStep(props: map<string, Value>, props': map<string, Value>, o: Obj, i: nat,
                   done: set<Obj>, doneRank: map<Obj, nat>, childNodes: set<Obj>, childRank: map<Obj, nat>,
                   nodes: set<Obj>, rank: map<Obj, nat>)
    requires CopiedUpTo(props, o, i, done, doneRank, nodes, rank)
    requires i < |o.keys| && o.keys[i] !in props
    requires doneRank.Keys == done && childRank.Keys == childNodes && done !! childNodes
    requires Ranked(childNodes, childRank)
    requires o.keys[i] in props' && props' == props[o.keys[i] := props'[o.keys[i]]]
    requires Below(props'[o.keys[i]], childNodes, childRank, rank[o])
    requires TreeOf(props'[o.keys[i]], childNodes, childRank) == Cloned(TreeOf(o.props[o.keys[i]], nodes, rank))
    ensures CopiedUpTo(props', o, i + 1, done + childNodes, doneRank + childRank, nodes, rank)
  {
    var done', doneRank' := done + childNodes, doneRank + childRank;
    forall x | x in done'
      ensures Sound(x, done', doneRank')
    {
      if x in done {
        assert Sound(x, done, doneRank);
      } else {
        assert Sound(x, childNodes, childRank);
      }
    }
    assert Ranked(done', doneRank');
    forall j | 0 <= j <= i
      ensures o.keys[j] in props' && Below(props'[o.keys[j]], done', doneRank', rank[o])
      ensures TreeOf(props'[o.keys[j]], done', doneRank') == Cloned(TreeOf(o.props[o.keys[j]], nodes, rank))
    {
      if j < i {
        assert o.keys[j] != o.keys[i];
        TreeOfFrame(props[o.keys[j]], done, doneRank, done', doneRank');
      } else {
        TreeOfFrame(props'[o.keys[i]], childNodes, childRank, done', doneRank');
      }
    }
  }

  /** When the loop in `CloneDeep` ends, the copy with the objects copied
      so far is ranked, and its view is the clone of the original's view. */
  lemma CopiedAll(clone: Obj, o: Obj, done: set<Obj>, doneRank: map<Obj, nat>, nodes: set<Obj>, rank: map<Obj, nat>)
    requires CopiedUpTo(clone.props, o, |o.keys|, done, doneRank, nodes, rank)
    requires clone.WellFormed() && clone.keys == o.keys && clone.kind == ClonedKind(o.kind)
    requires clone !in done && doneRank.Keys == done
    ensures Ranked(done + {clone}, doneRank[clone := rank[o]])
    ensures TreeOf(Ref(clone), done + {clone}, doneRank[clone := rank[o]]) == Cloned(TreeOf(Ref(o), nodes, rank))
  {
    var cNodes, cRank := done + {clone}, doneRank[clone := rank[o]];
    forall x | x in cNodes
      ensures Sound(x, cNodes, cRank)
    {
      if x == clone {
        forall k | k in clone.props
          ensures Below(clone.props[k], cNodes, cRank, rank[o])
        {
          var j :| 0 <= j < |o.keys| && o.keys[j] == k;
        }
      } else {
        assert Sound(x, done, doneRank);
      }
    }
    assert Ranked(cNodes, cRank);
    var t, ct := TreeOf(Ref(o), nodes, rank), TreeOf(Ref(clone), cNodes, cRank);
    EntriesLength(o, |o.keys|, nodes, rank);
    EntriesLength(clone, |o.keys|, cNodes, cRank);
    forall j | 0 <= j < |o.keys|
      ensures ct.entries[j] == Cloned(t).entries[j]
    {
      EntriesAt(o, |o.keys|, nodes, rank, j);
      EntriesAt(clone, |o.keys|, cNodes, cRank, j);
      TreeOfFrame(clone.props[o.keys[j]], done, doneRank, cNodes, cRank);
    }
  }
}
