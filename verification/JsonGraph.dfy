/**
 * Which values of a possibly cyclic object graph are JSON data (RFC 8259,
 * sections 3 to 5), checked with one shared set of ancestors.
 */
module JsonGraph {
  import opened Wrappers
  import opened Canonical

  type Ref = nat

  /** A finite number is known by the text its printer gives it. */
  datatype Value =
    | Null
    | Boolean(b: bool)
    | Number(text: Text)
    | NotFinite
    | Str(s: Text)
    | Obj(ref: Ref)
    | NotJson

  /** An own property; an accessor has no value. */
  datatype Property = Data(enumerable: bool, value: Value) | Accessor

  datatype Member = Member(name: Text, property: Property)

  /**
   * An array lists its slots, holes included, and says whether it has other
   * names; `callable` says that a `toJSON` would be called.
   */
  datatype Node =
    | ArrayNode(slots: seq<Option<Property>>, otherNames: bool, symbols: bool, callable: bool)
    | ObjectNode(members: seq<Member>, plainPrototype: bool, symbols: bool, callable: bool)

  type Heap = map<Ref, Node>

  predicate PlainProperty(p: Property) {
    p.Data? && p.enumerable
  }

  predicate Refers(heap: Heap, v: Value) {
    v.Obj? ==> v.ref in heap
  }

  /** References lead into the heap, numbers print as numbers, own names are distinct. */
  ghost predicate WellFormed(heap: Heap) {
    forall r :: r in heap ==> NodeWellFormed(heap, heap[r])
  }

  ghost predicate ValueWellFormed(heap: Heap, v: Value) {
    Refers(heap, v) && (v.Number? ==> NumberText(v.text))
  }

  ghost predicate NodeWellFormed(heap: Heap, node: Node) {
    match node
    case ArrayNode(slots, _, _, _) =>
      forall i :: 0 <= i < |slots| && slots[i].Some? && slots[i].value.Data? ==>
        ValueWellFormed(heap, slots[i].value.value)
    case ObjectNode(members, _, _, _) =>
      && (forall i, j :: 0 <= i < j < |members| ==> members[i].name != members[j].name)
      && forall i :: 0 <= i < |members| && members[i].property.Data? ==>
           ValueWellFormed(heap, members[i].property.value)
  }

  // ---------------------------------------------------------------- the tree a value stands for

  /** The array or object has nothing beside plain enumerable data. */
  predicate PlainNode(node: Node) {
    match node
    case ArrayNode(slots, otherNames, symbols, callable) =>
      !otherNames && !symbols && !callable &&
      forall i :: 0 <= i < |slots| ==> slots[i].Some? && PlainProperty(slots[i].value)
    case ObjectNode(members, plainPrototype, symbols, callable) =>
      plainPrototype && !symbols && !callable &&
      forall i :: 0 <= i < |members| ==> PlainProperty(members[i].property)
  }

  /** The value is the finite JSON tree `j`, shared parts written out. */
  ghost predicate Denotes(heap: Heap, v: Value, j: Json)
    decreases j
  {
    match v
    case Null => j == JNull
    case Boolean(b) => j == JBool(b)
    case Number(text) => j == JNumber(text)
    case Str(s) => j == JString(s)
    case NotFinite => false
    case NotJson => false
    case Obj(ref) =>
      && ref in heap && PlainNode(heap[ref])
      && match heap[ref]
         case ArrayNode(slots, _, _, _) =>
           && j.JArray? && |j.items| == |slots|
           && forall i :: 0 <= i < |slots| ==> Denotes(heap, slots[i].value.value, j.items[i])
         case ObjectNode(members, _, _, _) =>
           && j.JObject? && |j.fields| == |members|
           && forall i :: 0 <= i < |members| ==>
                j.fields[i].key == members[i].name && Denotes(heap, members[i].property.value, j.fields[i].value)
  }

  lemma {:induction false} DenotesOne(heap: Heap, v: Value, j: Json, k: Json)
    requires Denotes(heap, v, j) && Denotes(heap, v, k)
    ensures j == k
    decreases j
  {
    if v.Obj? {
      match heap[v.ref]
      case ArrayNode(slots, _, _, _) =>
        forall i | 0 <= i < |slots|
          ensures j.items[i] == k.items[i]
        {
          DenotesOne(heap, slots[i].value.value, j.items[i], k.items[i]);
        }
        assert j.items == k.items;
      case ObjectNode(members, _, _, _) =>
        forall i | 0 <= i < |members|
          ensures j.fields[i] == k.fields[i]
        {
          DenotesOne(heap, members[i].property.value, j.fields[i].value, k.fields[i].value);
        }
        assert j.fields == k.fields;
    }
  }

  lemma {:induction false} DenotedIsFinite(heap: Heap, v: Value, j: Json)
    requires WellFormed(heap) && ValueWellFormed(heap, v) && Denotes(heap, v, j)
    ensures Finite(j)
    decreases j
  {
    if v.Obj? {
      assert NodeWellFormed(heap, heap[v.ref]);
      match heap[v.ref]
      case ArrayNode(slots, _, _, _) =>
        forall i | 0 <= i < |slots|
          ensures Finite(j.items[i])
        {
          DenotedIsFinite(heap, slots[i].value.value, j.items[i]);
        }
      case ObjectNode(members, _, _, _) =>
        forall i | 0 <= i < |members|
          ensures Finite(j.fields[i].value)
        {
          DenotedIsFinite(heap, members[i].property.value, j.fields[i].value);
        }
    }
  }

  // ---------------------------------------------------------------- the check as a function

  /** The value passes with these ancestors above it. */
  predicate IsJson(heap: Heap, v: Value, ancestors: set<Ref>)
    decreases |heap.Keys - ancestors|, 2
  {
    match v
    case Null => true
    case Boolean(_) => true
    case Str(_) => true
    case Number(_) => true
    case NotFinite => false
    case NotJson => false
    case Obj(ref) => ref in heap && ref !in ancestors && IsJsonNode(heap, ref, ancestors)
  }

  predicate IsJsonNode(heap: Heap, ref: Ref, ancestors: set<Ref>)
    requires ref in heap && ref !in ancestors
    decreases |heap.Keys - ancestors|, 1
  {
    Narrows(heap, ref, ancestors);
    PlainNode(heap[ref]) &&
    match heap[ref]
    case ArrayNode(slots, _, _, _) =>
      forall i :: 0 <= i < |slots| ==> IsJson(heap, slots[i].value.value, ancestors + {ref})
    case ObjectNode(members, _, _, _) =>
      forall i :: 0 <= i < |members| ==> IsJson(heap, members[i].property.value, ancestors + {ref})
  }

  lemma Narrows(heap: Heap, ref: Ref, ancestors: set<Ref>)
    requires ref in heap && ref !in ancestors
    ensures |heap.Keys - (ancestors + {ref})| < |heap.Keys - ancestors|
  {
    assert heap.Keys - (ancestors + {ref}) == (heap.Keys - ancestors) - {ref};
  }

  /** The tree of a value that passes: what printing it would read. */
  function TreeOf(heap: Heap, v: Value, ancestors: set<Ref>): (j: Json)
    requires IsJson(heap, v, ancestors)
    ensures Denotes(heap, v, j)
    decreases |heap.Keys - ancestors|
  {
    match v
    case Null => JNull
    case Boolean(b) => JBool(b)
    case Number(text) => JNumber(text)
    case Str(s) => JString(s)
    case Obj(ref) =>
      Narrows(heap, ref, ancestors);
      assert IsJsonNode(heap, ref, ancestors) && PlainNode(heap[ref]);
      match heap[ref]
      case ArrayNode(slots, _, _, _) =>
        JArray(seq(|slots|, i requires 0 <= i < |slots| => TreeOf(heap, slots[i].value.value, ancestors + {ref})))
      case ObjectNode(members, _, _, _) =>
        JObject(seq(|members|, i requires 0 <= i < |members| =>
          Field(members[i].name, TreeOf(heap, members[i].property.value, ancestors + {ref}))))
  }

  /** The trees of the ancestors properly contain the tree below them. */
  ghost predicate Above(heap: Heap, trees: map<Ref, Json>, j: Json) {
    forall a :: a in trees ==> Denotes(heap, Obj(a), trees[a]) && Deeper(trees[a], j)
  }

  /** A measure that falls from a tree to its parts. */
  ghost function Depth(j: Json): nat
    decreases j
  {
    match j
    case JArray(items) => 1 + MaxDepth(seq(|items|, i requires 0 <= i < |items| => Depth(items[i])))
    case JObject(fields) => 1 + MaxDepth(seq(|fields|, i requires 0 <= i < |fields| => Depth(fields[i].value)))
    case _ => 0
  }

  ghost function MaxDepth(depths: seq<nat>): (m: nat)
    ensures forall i :: 0 <= i < |depths| ==> depths[i] <= m
  {
    if depths == [] then 0
    else
      var rest := MaxDepth(depths[1..]);
      assert forall i :: 0 < i < |depths| ==> depths[i] == depths[1..][i - 1];
      if depths[0] > rest then depths[0] else rest
  }

  ghost predicate Deeper(a: Json, b: Json) {
    Depth(a) > Depth(b)
  }

  lemma ItemDepth(j: Json, i: nat)
    ensures j.JArray? && i < |j.items| ==> Deeper(j, j.items[i])
    ensures j.JObject? && i < |j.fields| ==> Deeper(j, j.fields[i].value)
  {
    if j.JArray? && i < |j.items| {
      var depths := seq(|j.items|, k requires 0 <= k < |j.items| => Depth(j.items[k]));
      assert depths[i] <= MaxDepth(depths);
    }
    if j.JObject? && i < |j.fields| {
      var depths := seq(|j.fields|, k requires 0 <= k < |j.fields| => Depth(j.fields[k].value));
      assert depths[i] <= MaxDepth(depths);
    }
  }

  /** What stands for a tree passes below ancestors that stand for larger ones. */
  lemma {:induction false} DenotedPasses(heap: Heap, v: Value, j: Json, trees: map<Ref, Json>)
    requires Denotes(heap, v, j) && Above(heap, trees, j)
    ensures IsJson(heap, v, trees.Keys)
    decreases j
  {
    if v.Obj? {
      var ref := v.ref;
      if ref in trees {
        DenotesOne(heap, v, j, trees[ref]);
      }
      var below := trees[ref := j];
      assert below.Keys == trees.Keys + {ref};
      match heap[ref]
      case ArrayNode(slots, _, _, _) =>
        forall i | 0 <= i < |slots|
          ensures IsJson(heap, slots[i].value.value, trees.Keys + {ref})
        {
          ItemDepth(j, i);
          DenotedPasses(heap, slots[i].value.value, j.items[i], below);
        }
      case ObjectNode(members, _, _, _) =>
        forall i | 0 <= i < |members|
          ensures IsJson(heap, members[i].property.value, trees.Keys + {ref})
        {
          ItemDepth(j, i);
          DenotedPasses(heap, members[i].property.value, j.fields[i].value, below);
        }
    }
  }

  /** A value passes exactly when it stands for a finite JSON tree. */
  lemma JsonIffTree(heap: Heap, v: Value)
    ensures IsJson(heap, v, {}) <==> exists j :: Denotes(heap, v, j)
  {
    hide IsJson, Denotes;
    if IsJson(heap, v, {}) {
      var j := TreeOf(heap, v, {});
      assert Denotes(heap, v, j);
    } else {
      forall j
        ensures !Denotes(heap, v, j)
      {
        if Denotes(heap, v, j) {
          TreePasses(heap, v, j);
        }
      }
    }
  }

  lemma TreePasses(heap: Heap, v: Value, j: Json)
    requires Denotes(heap, v, j)
    ensures IsJson(heap, v, {})
  {
    hide IsJson, Denotes;
    var none: map<Ref, Json> := map[];
    DenotedPasses(heap, v, j, none);
    assert none.Keys == {};
  }

  // ---------------------------------------------------------------- cycles

  /** `child` hangs directly below the node of `ref`. */
  ghost predicate Child(heap: Heap, ref: Ref, child: Value) {
    ref in heap &&
    match heap[ref]
    case ArrayNode(slots, _, _, _) =>
      exists i :: 0 <= i < |slots| && slots[i].Some? && slots[i].value == Data(true, child)
    case ObjectNode(members, _, _, _) =>
      exists i :: 0 <= i < |members| && members[i].property == Data(true, child)
  }

  ghost predicate Path(heap: Heap, path: seq<Ref>) {
    forall k :: 0 <= k < |path| - 1 ==> Child(heap, path[k], Obj(path[k + 1]))
  }

  /** The tree below a node's tree that its child stands for. */
  ghost predicate Part(heap: Heap, child: Value, j: Json, part: Json) {
    Denotes(heap, child, part) && Deeper(j, part)
  }

  lemma ChildDenotes(heap: Heap, ref: Ref, child: Value, j: Json)
    requires Child(heap, ref, child) && Denotes(heap, Obj(ref), j)
    ensures exists part :: Part(heap, child, j, part)
  {
    match heap[ref]
    case ArrayNode(slots, _, _, _) =>
      var i :| 0 <= i < |slots| && slots[i].Some? && slots[i].value == Data(true, child);
      ItemDepth(j, i);
      assert Part(heap, child, j, j.items[i]);
    case ObjectNode(members, _, _, _) =>
      var i :| 0 <= i < |members| && members[i].property == Data(true, child);
      ItemDepth(j, i);
      assert Part(heap, child, j, j.fields[i].value);
  }

  lemma {:induction false} PathDescends(heap: Heap, path: seq<Ref>, j: Json, n: nat)
    requires Path(heap, path) && 0 < n < |path| && Denotes(heap, Obj(path[0]), j)
    ensures exists part :: Part(heap, Obj(path[n]), j, part)
    decreases n
  {
    hide Denotes, Child;
    var above := j;
    if n > 1 {
      PathDescends(heap, path, j, n - 1);
      above :| Part(heap, Obj(path[n - 1]), j, above);
    }
    ChildDenotes(heap, path[n - 1], Obj(path[n]), above);
    var part :| Part(heap, Obj(path[n]), above, part);
    assert Part(heap, Obj(path[n]), j, part);
  }

  /** Nothing that reaches a cycle passes. */
  lemma CyclesFail(heap: Heap, path: seq<Ref>, m: nat, n: nat)
    requires Path(heap, path) && m < n < |path| && path[m] == path[n]
    ensures !IsJson(heap, Obj(path[0]), {})
  {
    JsonIffTree(heap, Obj(path[0]));
    forall j
      ensures !Denotes(heap, Obj(path[0]), j)
    {
      if Denotes(heap, Obj(path[0]), j) {
        var part := j;
        if m > 0 {
          PathDescends(heap, path, j, m);
          part :| Part(heap, Obj(path[m]), j, part);
        }
        var rest := path[m..];
        forall k | 0 <= k < |rest| - 1
          ensures Child(heap, rest[k], Obj(rest[k + 1]))
        {
          assert rest[k] == path[m + k] && rest[k + 1] == path[m + k + 1];
          assert Child(heap, path[m + k], Obj(path[m + k + 1]));
        }
        PathDescends(heap, rest, part, n - m);
        var again :| Part(heap, Obj(path[n]), part, again);
        DenotesOne(heap, Obj(path[m]), part, again);
      }
    }
  }

  // ---------------------------------------------------------------- acyclic plain data

  predicate Datum(v: Value) {
    !v.NotFinite? && !v.NotJson?
  }

  ghost predicate PlainAt(heap: Heap, ref: Ref) {
    ref in heap && PlainNode(heap[ref]) && forall c :: Child(heap, ref, c) ==> Datum(c)
  }

  /** The path repeats nothing, avoids the ancestors, and meets plain data only. */
  ghost predicate CleanPath(heap: Heap, path: seq<Ref>, ancestors: set<Ref>) {
    && (forall k :: 0 <= k < |path| ==> PlainAt(heap, path[k]) && path[k] !in ancestors)
    && forall i, k :: 0 <= i < k < |path| ==> path[i] != path[k]
  }

  ghost predicate PathFrom(heap: Heap, ref: Ref, path: seq<Ref>) {
    path != [] && path[0] == ref && Path(heap, path)
  }

  /** Everything reachable from the value is plain data, and no path closes a cycle. */
  ghost predicate AcyclicPlain(heap: Heap, v: Value, ancestors: set<Ref>) {
    && Datum(v)
    && (v.Obj? ==> forall path :: PathFrom(heap, v.ref, path) ==> CleanPath(heap, path, ancestors))
  }

  lemma ChildIsClean(heap: Heap, ref: Ref, c: Value, ancestors: set<Ref>)
    requires AcyclicPlain(heap, Obj(ref), ancestors) && Child(heap, ref, c)
    ensures AcyclicPlain(heap, c, ancestors + {ref})
  {
    assert PathFrom(heap, ref, [ref]);
    assert PlainAt(heap, [ref][0]);
    if c.Obj? {
      forall path | PathFrom(heap, c.ref, path)
        ensures CleanPath(heap, path, ancestors + {ref})
      {
        var longer := [ref] + path;
        forall k | 0 <= k < |longer| - 1
          ensures Child(heap, longer[k], Obj(longer[k + 1]))
        {
          if k > 0 {
            assert longer[k] == path[k - 1] && longer[k + 1] == path[k - 1 + 1];
          }
        }
        assert PathFrom(heap, ref, longer);
        assert CleanPath(heap, longer, ancestors);
        forall k | 0 <= k < |path|
          ensures PlainAt(heap, path[k]) && path[k] !in ancestors + {ref}
        {
          assert longer[k + 1] == path[k] && longer[0] == ref;
        }
        forall a, b | 0 <= a < b < |path|
          ensures path[a] != path[b]
        {
          assert longer[a + 1] == path[a] && longer[b + 1] == path[b];
        }
      }
    }
  }

  lemma {:induction false} AcyclicPlainPasses(heap: Heap, v: Value, ancestors: set<Ref>)
    requires AcyclicPlain(heap, v, ancestors)
    ensures IsJson(heap, v, ancestors)
    decreases |heap.Keys - ancestors|
  {
    if v.Obj? {
      var ref := v.ref;
      assert PathFrom(heap, ref, [ref]);
      assert CleanPath(heap, [ref], ancestors);
      assert PlainAt(heap, [ref][0]) && [ref][0] !in ancestors;
      Narrows(heap, ref, ancestors);
      match heap[ref]
      case ArrayNode(slots, _, _, _) =>
        forall i | 0 <= i < |slots|
          ensures IsJson(heap, slots[i].value.value, ancestors + {ref})
        {
          assert slots[i].value == Data(true, slots[i].value.value);
          ChildIsClean(heap, ref, slots[i].value.value, ancestors);
          AcyclicPlainPasses(heap, slots[i].value.value, ancestors + {ref});
        }
      case ObjectNode(members, _, _, _) =>
        forall i | 0 <= i < |members|
          ensures IsJson(heap, members[i].property.value, ancestors + {ref})
        {
          assert members[i].property == Data(true, members[i].property.value);
          ChildIsClean(heap, ref, members[i].property.value, ancestors);
          AcyclicPlainPasses(heap, members[i].property.value, ancestors + {ref});
        }
    }
  }

  lemma DenotedIsPlain(heap: Heap, ref: Ref, j: Json)
    requires Denotes(heap, Obj(ref), j)
    ensures PlainAt(heap, ref)
  {
    forall c | Child(heap, ref, c)
      ensures Datum(c)
    {
      ChildDenotes(heap, ref, c, j);
      var part :| Part(heap, c, j, part);
    }
  }

  lemma PassingPathIsClean(heap: Heap, ref: Ref, path: seq<Ref>)
    requires IsJson(heap, Obj(ref), {}) && PathFrom(heap, ref, path)
    ensures CleanPath(heap, path, {})
  {
    hide IsJson, Denotes, PlainAt;
    var j := TreeOf(heap, Obj(ref), {});
    forall k | 0 <= k < |path|
      ensures PlainAt(heap, path[k])
    {
      var part := j;
      if k > 0 {
        PathDescends(heap, path, j, k);
        part :| Part(heap, Obj(path[k]), j, part);
      }
      DenotedIsPlain(heap, path[k], part);
    }
    forall i, k | 0 <= i < k < |path|
      ensures path[i] != path[k]
    {
      if path[i] == path[k] {
        CyclesFail(heap, path, i, k);
      }
    }
  }

  /** The check passes exactly on acyclic graphs of plain data; sharing is no cycle. */
  lemma JsonIffAcyclicPlain(heap: Heap, v: Value)
    ensures IsJson(heap, v, {}) <==> AcyclicPlain(heap, v, {})
  {
    if IsJson(heap, v, {}) {
      if v.Obj? {
        forall path | PathFrom(heap, v.ref, path)
          ensures CleanPath(heap, path, {})
        {
          PassingPathIsClean(heap, v.ref, path);
        }
      }
    }
    if AcyclicPlain(heap, v, {}) {
      AcyclicPlainPasses(heap, v, {});
    }
  }

  // ---------------------------------------------------------------- the check with its shared set

  class Checker {
    const heap: Heap
    var ancestors: set<Ref>

    constructor (heap: Heap)
      ensures this.heap == heap && ancestors == {}
    {
      this.heap := heap;
      ancestors := {};
    }

    /** Puts the set of ancestors back as it was. */
    method IsJsonValue(v: Value) returns (ok: bool)
      requires Refers(heap, v) && WellFormed(heap)
      modifies this
      ensures ancestors == old(ancestors)
      ensures ok == IsJson(heap, v, ancestors)
      decreases |heap.Keys - ancestors|, 2
    {
      match v
      case Null => return true;
      case Str(_) => return true;
      case Boolean(_) => return true;
      case Number(_) => return true;
      case NotFinite => return false;
      case NotJson => return false;
      case Obj(ref) =>
        if ref in ancestors {
          return false;
        }
        Narrows(heap, ref, ancestors);
        ghost var above := ancestors;
        ancestors := ancestors + {ref};
        if heap[ref].ArrayNode? {
          ok := IsJsonArray(ref, above);
        } else {
          ok := IsJsonObject(ref, above);
        }
        ancestors := ancestors - {ref};
    }

    method IsJsonArray(ref: Ref, ghost above: set<Ref>) returns (ok: bool)
      requires ref in heap && heap[ref].ArrayNode? && ref !in above && ancestors == above + {ref} && WellFormed(heap)
      modifies this
      ensures ancestors == old(ancestors)
      ensures ok == IsJsonNode(heap, ref, above)
      decreases |heap.Keys - ancestors|, 3
    {
      var node := heap[ref];
      assert NodeWellFormed(heap, node);
      if node.callable || node.symbols || node.otherNames {
        return false;
      }
      for index := 0 to |node.slots|
        invariant ancestors == above + {ref}
        invariant forall k :: 0 <= k < index ==>
                    node.slots[k].Some? && PlainProperty(node.slots[k].value) &&
                    IsJson(heap, node.slots[k].value.value, ancestors)
      {
        if node.slots[index].None? || node.slots[index].value.Accessor? || !node.slots[index].value.enumerable {
          return false;
        }
        var valid := IsJsonValue(node.slots[index].value.value);
        if !valid {
          return false;
        }
      }
      ok := true;
    }

    method IsJsonObject(ref: Ref, ghost above: set<Ref>) returns (ok: bool)
      requires ref in heap && heap[ref].ObjectNode? && ref !in above && ancestors == above + {ref} && WellFormed(heap)
      modifies this
      ensures ancestors == old(ancestors)
      ensures ok == IsJsonNode(heap, ref, above)
      decreases |heap.Keys - ancestors|, 3
    {
      var node := heap[ref];
      assert NodeWellFormed(heap, node);
      if !node.plainPrototype || node.callable || node.symbols {
        return false;
      }
      for index := 0 to |node.members|
        invariant ancestors == above + {ref}
        invariant forall k :: 0 <= k < index ==>
                    PlainProperty(node.members[k].property) && IsJson(heap, node.members[k].property.value, ancestors)
      {
        if node.members[index].property.Accessor? || !node.members[index].property.enumerable {
          return false;
        }
        var valid := IsJsonValue(node.members[index].property.value);
        if !valid {
          return false;
        }
      }
      ok := true;
    }
  }
}
