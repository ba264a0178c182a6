/** The bounded item locator (FindItemEntryFromObjectInternal and
    FindItemEntryFromValue): a depth-first search from an agent, through
    fields before properties, for the first value whose type is an Item.
    Objects are expanded only up to `maxDepth`, and at most once per search,
    thanks to a visited set threaded through the recursion. */
module Locator {
  import opened Wrappers
  import opened Text
  import opened Host

  /** Both managers start the search at depth 0 with maximum depth 3. */
  const MaxDepth: int := 3

  /** IsTrivialType: primitives, enums and strings are never searched. */
  predicate IsTrivialType(t: TypeDesc) {
    t.isPrimitive || t.isEnum || t.isString
  }

  /** IsItemRelatedType: the types whose members are searched. */
  predicate IsItemRelatedType(t: TypeDesc) {
    || t.isItem
    || Contains(t.ns, "ItemStatsSystem")
    || Contains(t.name, "Item")
    || Contains(t.name, "ItemEntry")
    || Contains(t.name, "ItemSetting")
    || Contains(t.name, "Inventory")
  }

  /** A value the locator accepts as its result. */
  predicate IsItem(v: Value) {
    v.Ref? && v.ty.isItem
  }

  /** The outcome of a search: the item found, the visited set afterwards, and
      the objects that the search added to the visited set, in order. */
  datatype Search = Search(found: Option<Value>, visited: set<ObjId>, marked: seq<ObjId>)

  predicate Distinct(s: seq<ObjId>) {
    forall i, j :: 0 <= i < j < |s| ==> s[i] != s[j]
  }

  /** `r` was produced from the visited set `visited`: it only added to it,
      and it added each object once. */
  ghost predicate Grows(visited: set<ObjId>, r: Search) {
    && r.visited == visited + (set x | x in r.marked)
    && Distinct(r.marked)
    && (forall x :: x in r.marked ==> x !in visited)
  }

  /** Whatever a search returns is an Item. */
  predicate FoundItem(r: Search) {
    r.found.Some? ==> IsItem(r.found.value)
  }

  /** Two searches run one after the other compose. */
  lemma GrowsThen(v0: set<ObjId>, r1: Search, r2: Search)
    requires Grows(v0, r1) && Grows(r1.visited, r2)
    ensures Grows(v0, Search(r2.found, r2.visited, r1.marked + r2.marked))
  {
    var m := r1.marked + r2.marked;
    forall i, j | 0 <= i < j < |m| ensures m[i] != m[j] {
      if j < |r1.marked| {
      } else if i >= |r1.marked| {
        assert m[i] == r2.marked[i - |r1.marked|];
        assert m[j] == r2.marked[j - |r1.marked|];
      } else {
        assert m[i] in r1.visited;
        assert m[j] in r2.marked;
      }
    }
    assert (set x | x in m) == (set x | x in r1.marked) + (set x | x in r2.marked);
  }

  /** Size of a value, counting nested collection elements. */
  function Size(v: Value): nat {
    match v
    case Null => 1
    case Ref(_, _, es) => 1 + SeqSize(es)
  }

  function SeqSize(es: seq<Value>): nat {
    if es == [] then 0 else Size(es[0]) + SeqSize(es[1..])
  }

  /** How many more object levels may still be expanded. */
  function Budget(depth: int, maxDepth: int): nat {
    if depth > maxDepth then 0 else maxDepth - depth + 1
  }

  /** FindItemEntryFromObjectInternal. */
  function FindInObject(nodes: map<ObjId, Node>, obj: Value, depth: int, maxDepth: int, visited: set<ObjId>): (r: Search)
    decreases Budget(depth, maxDepth), if depth > maxDepth then 0 else 3, 0, 0
    ensures FoundItem(r) && Grows(visited, r)
  {
    if obj.Null? || depth > maxDepth then Search(None, visited, [])
    else if obj.ty.isItem then Search(Some(obj), visited, [])
    else if obj.id in visited then Search(None, visited, [])
    else
      var here := Search(None, visited + {obj.id}, [obj.id]);
      if IsTrivialType(obj.ty) then here
      else
        var node := NodeOf(nodes, obj.id);
        var rf := FindInFields(nodes, node.fields, depth, maxDepth, here.visited);
        GrowsThen(visited, here, rf);
        var afterFields := Search(rf.found, rf.visited, here.marked + rf.marked);
        if rf.found.Some? then afterFields
        else
          var rp := FindInProps(nodes, node.props, depth, maxDepth, rf.visited);
          GrowsThen(visited, afterFields, rp);
          Search(rp.found, rp.visited, afterFields.marked + rp.marked)
  }

  /** The field loop: static fields and fields whose read throws are skipped. */
  function FindInFields(nodes: map<ObjId, Node>, fields: seq<FieldSlot>, depth: int, maxDepth: int, visited: set<ObjId>): (r: Search)
    decreases Budget(depth, maxDepth), 2, 0, |fields|
    ensures FoundItem(r) && Grows(visited, r)
  {
    if fields == [] then Search(None, visited, [])
    else if fields[0].isStatic || fields[0].read.None? then
      FindInFields(nodes, fields[1..], depth, maxDepth, visited)
    else
      var rv := FindInValue(nodes, fields[0].read.value, depth, maxDepth, visited);
      if rv.found.Some? then rv
      else
        var rest := FindInFields(nodes, fields[1..], depth, maxDepth, rv.visited);
        GrowsThen(visited, rv, rest);
        Search(rest.found, rest.visited, rv.marked + rest.marked)
  }

  /** A property the property loop reads: readable, not indexed, and its getter does not throw. */
  predicate PropReadable(p: PropSlot) {
    p.canRead && p.indexParams == 0 && p.read.Some?
  }

  /** The property loop. */
  function FindInProps(nodes: map<ObjId, Node>, props: seq<PropSlot>, depth: int, maxDepth: int, visited: set<ObjId>): (r: Search)
    decreases Budget(depth, maxDepth), 2, 0, |props|
    ensures FoundItem(r) && Grows(visited, r)
  {
    if props == [] then Search(None, visited, [])
    else if !PropReadable(props[0]) then
      FindInProps(nodes, props[1..], depth, maxDepth, visited)
    else
      var rv := FindInValue(nodes, props[0].read.value, depth, maxDepth, visited);
      if rv.found.Some? then rv
      else
        var rest := FindInProps(nodes, props[1..], depth, maxDepth, rv.visited);
        GrowsThen(visited, rv, rest);
        Search(rest.found, rest.visited, rv.marked + rest.marked)
  }

  /** FindItemEntryFromValue. */
  function FindInValue(nodes: map<ObjId, Node>, value: Value, depth: int, maxDepth: int, visited: set<ObjId>): (r: Search)
    decreases Budget(depth, maxDepth), 1, Size(value), 0
    ensures FoundItem(r) && Grows(visited, r)
  {
    if value.Null? then Search(None, visited, [])
    else if value.ty.isItem then Search(Some(value), visited, [])
    else if IsTrivialType(value.ty) then Search(None, visited, [])
    else
      var ro :=
        if IsItemRelatedType(value.ty) then FindInObject(nodes, value, depth + 1, maxDepth, visited)
        else Search(None, visited, []);
      if ro.found.Some? then ro
      else if value.ty.isEnumerable && !value.ty.isString then
        var re := FindInElems(nodes, value.elems, depth + 1, maxDepth, ro.visited);
        GrowsThen(visited, ro, re);
        Search(re.found, re.visited, ro.marked + re.marked)
      else ro
  }

  /** The `foreach` over a collection's elements. */
  function FindInElems(nodes: map<ObjId, Node>, elems: seq<Value>, depth: int, maxDepth: int, visited: set<ObjId>): (r: Search)
    decreases Budget(depth, maxDepth), 1, SeqSize(elems), 1
    ensures FoundItem(r) && Grows(visited, r)
  {
    if elems == [] then Search(None, visited, [])
    else
      var rv := FindInValue(nodes, elems[0], depth, maxDepth, visited);
      if rv.found.Some? then rv
      else
        var rest := FindInElems(nodes, elems[1..], depth, maxDepth, rv.visited);
        GrowsThen(visited, rv, rest);
        Search(rest.found, rest.visited, rv.marked + rest.marked)
  }

  /** GetItemFromAgent / FindItemFromAgent: nothing for an agent that is
      null by Unity's test, otherwise a fresh search from the agent. */
  function ItemOfAgent(w: World, agent: Value): (r: Option<Value>)
    ensures UnityNull(w, agent) ==> r.None?
    ensures r.Some? ==> IsItem(r.value)
  {
    if UnityNull(w, agent) then None
    else FindInObject(w.nodes, agent, 0, MaxDepth, {}).found
  }

  /** FindItemEntryFromObjectInternal as the source runs it: loops over the
      fields and then the properties, returning at the first match, with the
      visited set passed in and handed back. */
  method SearchObject(nodes: map<ObjId, Node>, obj: Value, depth: int, maxDepth: int, visited: set<ObjId>)
    returns (found: Option<Value>, visited': set<ObjId>)
    decreases Budget(depth, maxDepth), if depth > maxDepth then 0 else 3, 0
    ensures found == FindInObject(nodes, obj, depth, maxDepth, visited).found
    ensures visited' == FindInObject(nodes, obj, depth, maxDepth, visited).visited
  {
    if obj.Null? || depth > maxDepth { return None, visited; }
    if obj.ty.isItem { return Some(obj), visited; }
    if obj.id in visited { return None, visited; }
    visited' := visited + {obj.id};
    if IsTrivialType(obj.ty) { return None, visited'; }

    var node := NodeOf(nodes, obj.id);
    found, visited' := SearchFields(nodes, node.fields, depth, maxDepth, visited');
    if found.Some? { return; }
    found, visited' := SearchProps(nodes, node.props, depth, maxDepth, visited');
  }

  /** The field loop of FindItemEntryFromObjectInternal. */
  method SearchFields(nodes: map<ObjId, Node>, fields: seq<FieldSlot>, depth: int, maxDepth: int, visited: set<ObjId>)
    returns (found: Option<Value>, visited': set<ObjId>)
    decreases Budget(depth, maxDepth), 2, 0
    ensures found == FindInFields(nodes, fields, depth, maxDepth, visited).found
    ensures visited' == FindInFields(nodes, fields, depth, maxDepth, visited).visited
  {
    visited' := visited;
    var i := 0;
    while i < |fields|
      invariant 0 <= i <= |fields|
      invariant FindInFields(nodes, fields, depth, maxDepth, visited).found
             == FindInFields(nodes, fields[i..], depth, maxDepth, visited').found
      invariant FindInFields(nodes, fields, depth, maxDepth, visited).visited
             == FindInFields(nodes, fields[i..], depth, maxDepth, visited').visited
    {
      var f := fields[i];
      assert fields[i..][1..] == fields[i + 1..];
      if !f.isStatic && f.read.Some? {
        var r, v := SearchValue(nodes, f.read.value, depth, maxDepth, visited');
        if r.Some? { return r, v; }
        visited' := v;
      }
      i := i + 1;
    }
    found := None;
  }

  /** The property loop of FindItemEntryFromObjectInternal. */
  method SearchProps(nodes: map<ObjId, Node>, props: seq<PropSlot>, depth: int, maxDepth: int, visited: set<ObjId>)
    returns (found: Option<Value>, visited': set<ObjId>)
    decreases Budget(depth, maxDepth), 2, 0
    ensures found == FindInProps(nodes, props, depth, maxDepth, visited).found
    ensures visited' == FindInProps(nodes, props, depth, maxDepth, visited).visited
  {
    visited' := visited;
    var i := 0;
    while i < |props|
      invariant 0 <= i <= |props|
      invariant FindInProps(nodes, props, depth, maxDepth, visited).found
             == FindInProps(nodes, props[i..], depth, maxDepth, visited').found
      invariant FindInProps(nodes, props, depth, maxDepth, visited).visited
             == FindInProps(nodes, props[i..], depth, maxDepth, visited').visited
    {
      var p := props[i];
      assert props[i..][1..] == props[i + 1..];
      if p.canRead && p.indexParams == 0 && p.read.Some? {
        var r, v := SearchValue(nodes, p.read.value, depth, maxDepth, visited');
        if r.Some? { return r, v; }
        visited' := v;
      }
      i := i + 1;
    }
    found := None;
  }

  /** FindItemEntryFromValue as the source runs it. */
  method SearchValue(nodes: map<ObjId, Node>, value: Value, depth: int, maxDepth: int, visited: set<ObjId>)
    returns (found: Option<Value>, visited': set<ObjId>)
    decreases Budget(depth, maxDepth), 1, Size(value)
    ensures found == FindInValue(nodes, value, depth, maxDepth, visited).found
    ensures visited' == FindInValue(nodes, value, depth, maxDepth, visited).visited
  {
    if value.Null? { return None, visited; }
    if value.ty.isItem { return Some(value), visited; }
    if IsTrivialType(value.ty) { return None, visited; }

    visited' := visited;
    if IsItemRelatedType(value.ty) {
      found, visited' := SearchObject(nodes, value, depth + 1, maxDepth, visited);
      if found.Some? { return; }
    }

    if value.ty.isEnumerable && !value.ty.isString {
      ghost var whole := FindInElems(nodes, value.elems, depth + 1, maxDepth, visited');
      var rest := value.elems;
      while rest != []
        invariant SeqSize(rest) <= SeqSize(value.elems)
        invariant whole.found == FindInElems(nodes, rest, depth + 1, maxDepth, visited').found
        invariant whole.visited == FindInElems(nodes, rest, depth + 1, maxDepth, visited').visited
      {
        found, visited' := SearchValue(nodes, rest[0], depth + 1, maxDepth, visited');
        if found.Some? { return; }
        rest := rest[1..];
      }
    }
    found := None;
  }

  /** GetItemFromAgent / FindItemFromAgent. */
  method FindItemFromAgent(w: World, agent: Value) returns (item: Option<Value>)
    ensures item == ItemOfAgent(w, agent)
    ensures item.Some? ==> IsItem(item.value)
  {
    if UnityNull(w, agent) {
      return None;
    }
    var visited;
    item, visited := SearchObject(w.nodes, agent, 0, MaxDepth, {});
  }

  // ---------------------------------------------------------------------
  // Properties of the search
  // ---------------------------------------------------------------------

  /** The early exits of FindItemEntryFromObjectInternal, in source order: a
      call beyond the maximum depth finds nothing; an Item root is returned
      before the visited set is consulted; an object already visited is not
      expanded again; any other object is marked visited. */
  lemma ObjectEarlyExits(nodes: map<ObjId, Node>, obj: Value, depth: int, maxDepth: int, visited: set<ObjId>)
    ensures var r := FindInObject(nodes, obj, depth, maxDepth, visited);
      && (depth > maxDepth ==> r == Search(None, visited, []))
      && (depth <= maxDepth && IsItem(obj) ==> r == Search(Some(obj), visited, []))
      && (obj.Ref? && !obj.ty.isItem && obj.id in visited ==> r == Search(None, visited, []))
      && (depth <= maxDepth && obj.Ref? && !obj.ty.isItem && obj.id !in visited ==>
            r.marked != [] && r.marked[0] == obj.id)
  {
  }

  /** FindItemEntryFromValue: an Item is returned at any depth; trivial values
      are pruned; a reference that is neither item-related nor enumerable is
      not descended into. */
  lemma ValueEarlyExits(nodes: map<ObjId, Node>, value: Value, depth: int, maxDepth: int, visited: set<ObjId>)
    ensures var r := FindInValue(nodes, value, depth, maxDepth, visited);
      && (IsItem(value) ==> r == Search(Some(value), visited, []))
      && (value.Ref? && !value.ty.isItem && IsTrivialType(value.ty) ==> r == Search(None, visited, []))
      && (value.Ref? && !value.ty.isItem && !IsItemRelatedType(value.ty) && !value.ty.isEnumerable ==>
            r == Search(None, visited, []))
  {
  }

  /** Fields are searched before properties: when the field loop finds an
      item, that item is the result. */
  lemma FieldsBeforeProperties(nodes: map<ObjId, Node>, obj: Value, depth: int, maxDepth: int, visited: set<ObjId>)
    requires obj.Ref? && !obj.ty.isItem && !IsTrivialType(obj.ty)
    requires depth <= maxDepth && obj.id !in visited
    requires FindInFields(nodes, NodeOf(nodes, obj.id).fields, depth, maxDepth, visited + {obj.id}).found.Some?
    ensures FindInObject(nodes, obj, depth, maxDepth, visited).found
         == FindInFields(nodes, NodeOf(nodes, obj.id).fields, depth, maxDepth, visited + {obj.id}).found
  {
  }

  /** The fields the loop actually reads: instance fields whose read does not throw. */
  function InstanceFields(fields: seq<FieldSlot>): (r: seq<FieldSlot>)
    ensures forall f :: f in r ==> f in fields && !f.isStatic && f.read.Some?
  {
    if fields == [] then []
    else if fields[0].isStatic || fields[0].read.None? then InstanceFields(fields[1..])
    else [fields[0]] + InstanceFields(fields[1..])
  }

  /** The properties the loop actually reads. */
  function ReadableProps(props: seq<PropSlot>): (r: seq<PropSlot>)
    ensures forall p :: p in r ==> p in props && PropReadable(p)
  {
    if props == [] then []
    else if !PropReadable(props[0]) then ReadableProps(props[1..])
    else [props[0]] + ReadableProps(props[1..])
  }

  /** Static fields and fields whose read throws play no part in the search. */
  lemma {:induction false} SkippedFieldsIgnored(nodes: map<ObjId, Node>, fields: seq<FieldSlot>, depth: int, maxDepth: int, visited: set<ObjId>)
    ensures FindInFields(nodes, fields, depth, maxDepth, visited)
         == FindInFields(nodes, InstanceFields(fields), depth, maxDepth, visited)
    decreases |fields|
  {
    if fields == [] {
    } else if fields[0].isStatic || fields[0].read.None? {
      SkippedFieldsIgnored(nodes, fields[1..], depth, maxDepth, visited);
    } else {
      var kept := InstanceFields(fields);
      assert kept[0] == fields[0] && kept[1..] == InstanceFields(fields[1..]);
      var rv := FindInValue(nodes, fields[0].read.value, depth, maxDepth, visited);
      SkippedFieldsIgnored(nodes, fields[1..], depth, maxDepth, rv.visited);
    }
  }

  /** Unreadable properties, indexers and properties whose getter throws play
      no part in the search. */
  lemma {:induction false} SkippedPropsIgnored(nodes: map<ObjId, Node>, props: seq<PropSlot>, depth: int, maxDepth: int, visited: set<ObjId>)
    ensures FindInProps(nodes, props, depth, maxDepth, visited)
         == FindInProps(nodes, ReadableProps(props), depth, maxDepth, visited)
    decreases |props|
  {
    if props == [] {
    } else if !PropReadable(props[0]) {
      SkippedPropsIgnored(nodes, props[1..], depth, maxDepth, visited);
    } else {
      var kept := ReadableProps(props);
      assert kept[0] == props[0] && kept[1..] == ReadableProps(props[1..]);
      var rv := FindInValue(nodes, props[0].read.value, depth, maxDepth, visited);
      SkippedPropsIgnored(nodes, props[1..], depth, maxDepth, rv.visited);
    }
  }

  /** Of the name tests in IsItemRelatedType, "ItemEntry" and "ItemSetting"
      are subsumed by "Item": the test amounts to four conditions. */
  lemma ItemRelatedSimplified(t: TypeDesc)
    ensures IsItemRelatedType(t) <==>
      t.isItem || Contains(t.ns, "ItemStatsSystem") || Contains(t.name, "Item") || Contains(t.name, "Inventory")
  {
    if Contains(t.name, "ItemEntry") {
      assert "ItemEntry" == "Item" + "Entry";
      ContainsPrefixOf(t.name, "Item", "Entry");
    }
    if Contains(t.name, "ItemSetting") {
      assert "ItemSetting" == "Item" + "Setting";
      ContainsPrefixOf(t.name, "Item", "Setting");
    }
  }

  /** A collection is iterated whatever the depth: the depth bound limits how
      deep objects are expanded, not how deep collections nest. */
  lemma ElementsIgnoreDepth(nodes: map<ObjId, Node>, coll: Value, depth: int, maxDepth: int, visited: set<ObjId>)
    requires coll.Ref? && !coll.ty.isItem && !IsTrivialType(coll.ty) && !IsItemRelatedType(coll.ty)
    requires coll.ty.isEnumerable && coll.elems != [] && IsItem(coll.elems[0])
    ensures FindInValue(nodes, coll, depth, maxDepth, visited).found == Some(coll.elems[0])
  {
    assert FindInElems(nodes, coll.elems, depth + 1, maxDepth, visited).found == Some(coll.elems[0]);
  }

  // ---------------------------------------------------------------------
  // Two small graphs
  // ---------------------------------------------------------------------

  /** A reference type with no members and the given name and Item flag. */
  function PlainType(name: string, isItem: bool): TypeDesc {
    TypeDesc(name, "", false, false, false, isItem, false, false, false, map[], map[], None)
  }

  /** The search is depth-first, not shallowest-first.  The agent's first
      field holds an "ItemHolder" whose field holds item 3; the agent's second
      field holds item 4 directly.  The result is item 3, one level deeper. */
  lemma DepthFirstNotShallowest()
    ensures var itemTy := PlainType("Item", true);
      var holderTy := PlainType("ItemHolder", false);
      var agentTy := PlainType("ItemAgent_Gun", false);
      var deep := Ref(3, itemTy, []);
      var shallow := Ref(4, itemTy, []);
      var nodes := map[
        1 := Node([FieldSlot(false, Some(Ref(2, holderTy, []))), FieldSlot(false, Some(shallow))], []),
        2 := Node([FieldSlot(false, Some(deep))], [])];
      var w := World(nodes, _ => true, (_, _) => None, (_, _) => None, (_, _) => None);
      ItemOfAgent(w, Ref(1, agentTy, [])) == Some(deep)
  {
    var itemTy := PlainType("Item", true);
    var holderTy := PlainType("ItemHolder", false);
    var agentTy := PlainType("ItemAgent_Gun", false);
    var deep := Ref(3, itemTy, []);
    var shallow := Ref(4, itemTy, []);
    var holder := Ref(2, holderTy, []);
    var nodes := map[
      1 := Node([FieldSlot(false, Some(holder)), FieldSlot(false, Some(shallow))], []),
      2 := Node([FieldSlot(false, Some(deep))], [])];
    assert OccursAt(holderTy.name, "Item", 0);
    assert IsItemRelatedType(holderTy);
    assert NodeOf(nodes, 2).fields == [FieldSlot(false, Some(deep))];
    assert FindInValue(nodes, deep, 1, MaxDepth, {1, 2}).found == Some(deep);
    var inHolder := FindInFields(nodes, NodeOf(nodes, 2).fields, 1, MaxDepth, {1, 2});
    assert inHolder.found == Some(deep);
    assert {1} + {holder.id} == {1, 2};
    var holderSearch := FindInObject(nodes, holder, 1, MaxDepth, {1});
    assert holderSearch.found == Some(deep);
    assert FindInValue(nodes, holder, 0, MaxDepth, {1}).found == Some(deep);
    assert FindInFields(nodes, NodeOf(nodes, 1).fields, 0, MaxDepth, {1}).found == Some(deep);
  }

  /** Cycle safety: an item-related object whose only field refers to itself
      is expanded once, and the search ends with nothing found. */
  lemma SelfReferenceEndsEmpty()
    ensures var boxTy := PlainType("ItemBox", false);
      var box := Ref(1, boxTy, []);
      var nodes := map[1 := Node([FieldSlot(false, Some(box))], [])];
      FindInObject(nodes, box, 0, MaxDepth, {}) == Search(None, {1}, [1])
  {
    var boxTy := PlainType("ItemBox", false);
    var box := Ref(1, boxTy, []);
    var nodes := map[1 := Node([FieldSlot(false, Some(box))], [])];
    assert OccursAt(boxTy.name, "Item", 0);
    assert IsItemRelatedType(boxTy);
    assert FindInObject(nodes, box, 1, MaxDepth, {1}) == Search(None, {1}, []);
    assert FindInValue(nodes, box, 0, MaxDepth, {1}) == Search(None, {1}, []);
    assert FindInFields(nodes, NodeOf(nodes, 1).fields, 0, MaxDepth, {1}) == Search(None, {1}, []);
  }

  // ---------------------------------------------------------------------
  // Collections that hold themselves
  // ---------------------------------------------------------------------

  /** A collection graph in which collections are shared objects, so that
      one may hold itself: enumerating collection `id` yields `contents[id]`.
      A `Plain` element is an Item or a value the search does not enter; a
      `Collection` is enumerable and not item-related. */
  datatype Elem = Plain(isItem: bool) | Collection(id: ObjId)

  /** How a search ends; `Overflow` is the call stack running out. */
  datatype Outcome = Found | NotFound | Overflow

  function ContentsOf(contents: map<ObjId, seq<Elem>>, id: ObjId): seq<Elem> {
    if id in contents then contents[id] else []
  }

  /** The collection path of FindItemEntryFromValue as written: a collection
      element is enumerated again with no depth or visited test.  `fuel`
      stands for the stack frames left. */
  function ElemValueAsWritten(contents: map<ObjId, seq<Elem>>, e: Elem, fuel: nat): Outcome
    decreases fuel, 0
  {
    if fuel == 0 then Overflow
    else match e
      case Plain(isItem) => if isItem then Found else NotFound
      case Collection(id) => ElemsAsWritten(contents, ContentsOf(contents, id), fuel - 1)
  }

  function ElemsAsWritten(contents: map<ObjId, seq<Elem>>, es: seq<Elem>, fuel: nat): Outcome
    decreases fuel, 1, |es|
  {
    if es == [] then NotFound
    else
      var r := ElemValueAsWritten(contents, es[0], fuel);
      if r != NotFound then r else ElemsAsWritten(contents, es[1..], fuel)
  }

  /** A collection that holds itself exhausts any stack: the search as
      written never returns on it. */
  lemma {:induction false} SelfHoldingCollectionOverflows(contents: map<ObjId, seq<Elem>>, id: ObjId, fuel: nat)
    requires id in contents && contents[id] == [Collection(id)]
    ensures ElemValueAsWritten(contents, Collection(id), fuel) == Overflow
    decreases fuel
  {
    if fuel > 0 {
      SelfHoldingCollectionOverflows(contents, id, fuel - 1);
      assert ElemsAsWritten(contents, [Collection(id)], fuel - 1)
          == ElemValueAsWritten(contents, Collection(id), fuel - 1);
    }
  }

  /** The collection path with the depth bound the object path already
      applies: a collection past the maximum depth is not enumerated.
      `fuel` stands for the stack frames left, as in the path as written. */
  function ElemValueBounded(contents: map<ObjId, seq<Elem>>, e: Elem, depth: int, fuel: nat): Outcome
    decreases fuel, 0
  {
    if fuel == 0 then Overflow
    else match e
      case Plain(isItem) => if isItem then Found else NotFound
      case Collection(id) =>
        if depth > MaxDepth then NotFound else ElemsBounded(contents, ContentsOf(contents, id), depth + 1, fuel - 1)
  }

  function ElemsBounded(contents: map<ObjId, seq<Elem>>, es: seq<Elem>, depth: int, fuel: nat): Outcome
    decreases fuel, 1, |es|
  {
    if es == [] then NotFound
    else
      var r := ElemValueBounded(contents, es[0], depth, fuel);
      if r != NotFound then r else ElemsBounded(contents, es[1..], depth, fuel)
  }

  /** The bounded search needs at most `Budget(depth, MaxDepth) + 1` stack
      frames, on every collection graph, self-holding ones included. */
  lemma {:induction false} BoundedNeverOverflows(contents: map<ObjId, seq<Elem>>, e: Elem, depth: int, fuel: nat)
    requires fuel > Budget(depth, MaxDepth)
    ensures ElemValueBounded(contents, e, depth, fuel) != Overflow
    decreases fuel, 0
  {
    if e.Collection? && depth <= MaxDepth {
      ElemsBoundedNeverOverflow(contents, ContentsOf(contents, e.id), depth + 1, fuel - 1);
    }
  }

  lemma {:induction false} ElemsBoundedNeverOverflow(contents: map<ObjId, seq<Elem>>, es: seq<Elem>, depth: int, fuel: nat)
    requires fuel > Budget(depth, MaxDepth)
    ensures ElemsBounded(contents, es, depth, fuel) != Overflow
    decreases fuel, 1, |es|
  {
    if es != [] {
      BoundedNeverOverflows(contents, es[0], depth, fuel);
      ElemsBoundedNeverOverflow(contents, es[1..], depth, fuel);
    }
  }

  /** On a collection that holds itself, the bounded search, given the
      stack it needs, ends with nothing found. */
  lemma {:induction false} SelfHoldingCollectionEndsEmpty(contents: map<ObjId, seq<Elem>>, id: ObjId, depth: int, fuel: nat)
    requires id in contents && contents[id] == [Collection(id)]
    requires fuel > Budget(depth, MaxDepth)
    ensures ElemValueBounded(contents, Collection(id), depth, fuel) == NotFound
    decreases fuel
  {
    if depth <= MaxDepth {
      SelfHoldingCollectionEndsEmpty(contents, id, depth + 1, fuel - 1);
      assert ElemsBounded(contents, [Collection(id)], depth + 1, fuel - 1)
          == ElemValueBounded(contents, Collection(id), depth + 1, fuel - 1);
    }
  }
}
