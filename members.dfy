/** Member resolution by name: the `??` chains of `GetProperty`/`GetField`
    lookups, the base-type walk, the boolean flag probe, and the per-type
    TypeID member cache of GetTypeIdFromItemEntry. */
module Members {
  import opened Wrappers
  import opened Host
  import opened Locator

  /** `t.Get…(names[0]) ?? t.Get…(names[1]) ?? …`: the first name that the
      type declares, whatever that member's type. */
  function FirstDeclared(decls: map<string, ClrType>, kind: MemberKind, names: seq<string>): (r: Option<Member>)
    ensures r.None? <==> forall i :: 0 <= i < |names| ==> names[i] !in decls
    ensures r.Some? ==> r.value.kind == kind && r.value.name in names
    ensures r.Some? ==> r.value.name in decls && r.value.valueType == decls[r.value.name]
  {
    if names == [] then None
    else if names[0] in decls then Some(Member(kind, names[0], decls[names[0]]))
    else
      var rest := FirstDeclared(decls, kind, names[1..]);
      assert forall i :: 1 <= i < |names| ==> names[i] == names[1..][i - 1];
      rest
  }

  /** The chain stops at the first name the type declares: later names are
      never looked at, even when that first member is of the wrong type. */
  lemma {:induction false} FirstDeclaredIsFirst(decls: map<string, ClrType>, kind: MemberKind, names: seq<string>, i: nat)
    requires i < |names| && names[i] in decls
    requires forall j :: 0 <= j < i ==> names[j] !in decls
    ensures FirstDeclared(decls, kind, names) == Some(Member(kind, names[i], decls[names[i]]))
  {
    if i > 0 {
      assert names[0] !in decls;
      assert forall j :: 0 <= j < i - 1 ==> names[1..][j] == names[j + 1];
      FirstDeclaredIsFirst(decls, kind, names[1..], i - 1);
    }
  }

  /** The number of types from `t` up to the root of its hierarchy. */
  function Depth(t: TypeDesc): nat {
    match t.baseType
    case None => 1
    case Some(b) => 1 + Depth(b)
  }

  /** The field-lookup loop over `t`, `t.BaseType`, … (metalslugvoice.cs
      309-315): the first type in the chain that declares one of the names
      decides, through its own `??` chain. */
  function FieldInHierarchy(t: TypeDesc, names: seq<string>): (r: Option<Member>)
    decreases Depth(t)
    ensures r.Some? ==> r.value.kind == FieldMember && r.value.name in names
    ensures FirstDeclared(t.fields, FieldMember, names).Some? ==> r == FirstDeclared(t.fields, FieldMember, names)
    ensures t.baseType.None? && FirstDeclared(t.fields, FieldMember, names).None? ==> r.None?
  {
    var own := FirstDeclared(t.fields, FieldMember, names);
    if own.Some? then own
    else match t.baseType
      case None => None
      case Some(b) => FieldInHierarchy(b, names)
  }

  /** The `k`-th type up the chain from `t` (`t` itself at 0); None past
      the root. */
  function Ancestor(t: TypeDesc, k: nat): Option<TypeDesc>
    decreases k
  {
    if k == 0 then Some(t)
    else match t.baseType
      case None => None
      case Some(b) => Ancestor(b, k - 1)
  }

  /** The `k`-th type up the chain exists and declares one of the names. */
  predicate DeclaresAt(t: TypeDesc, names: seq<string>, k: nat) {
    Ancestor(t, k).Some? && FirstDeclared(Ancestor(t, k).value.fields, FieldMember, names).Some?
  }

  /** The walk over the whole chain: nothing is found exactly when no type
      in the chain declares a name, and otherwise the answer is the `??`
      chain of the nearest type that does. */
  lemma {:induction false} FieldInHierarchyWalk(t: TypeDesc, names: seq<string>)
    decreases Depth(t)
    ensures FieldInHierarchy(t, names).None? <==> forall k: nat :: !DeclaresAt(t, names, k)
    ensures FieldInHierarchy(t, names).Some? ==>
              exists k: nat :: && DeclaresAt(t, names, k)
                               && FieldInHierarchy(t, names) == FirstDeclared(Ancestor(t, k).value.fields, FieldMember, names)
                               && forall j: nat :: j < k ==> !DeclaresAt(t, names, j)
  {
    var own := FirstDeclared(t.fields, FieldMember, names);
    assert Ancestor(t, 0) == Some(t);
    if own.Some? {
      assert DeclaresAt(t, names, 0);
    } else {
      assert !DeclaresAt(t, names, 0);
      match t.baseType {
        case None =>
          forall k: nat ensures !DeclaresAt(t, names, k) {
            if k > 0 {
              assert Ancestor(t, k) == None;
            }
          }
        case Some(b) =>
          FieldInHierarchyWalk(b, names);
          forall k: nat | k > 0 ensures DeclaresAt(t, names, k) == DeclaresAt(b, names, k - 1) {
            assert Ancestor(t, k) == Ancestor(b, k - 1);
          }
          if FieldInHierarchy(b, names).Some? {
            var k: nat :| && DeclaresAt(b, names, k)
                          && FieldInHierarchy(b, names) == FirstDeclared(Ancestor(b, k).value.fields, FieldMember, names)
                          && forall j: nat :: j < k ==> !DeclaresAt(b, names, j);
            assert Ancestor(t, k + 1) == Ancestor(b, k);
            assert DeclaresAt(t, names, k + 1);
            forall j: nat | j < k + 1 ensures !DeclaresAt(t, names, j) {
              if j > 0 {
                assert !DeclaresAt(b, names, j - 1);
              }
            }
          } else {
            forall k: nat ensures !DeclaresAt(t, names, k) {
              if k > 0 {
                assert !DeclaresAt(b, names, k - 1);
              }
            }
          }
      }
    }
  }

  /** The base-type walk as the source runs it. */
  method FindFieldInHierarchy(t: TypeDesc, names: seq<string>) returns (field: Option<Member>)
    ensures field == FieldInHierarchy(t, names)
  {
    var cur: Option<TypeDesc> := Some(t);
    field := None;
    while cur.Some? && field.None?
      invariant field.Some? ==> field == FieldInHierarchy(t, names)
      invariant field.None? && cur.Some? ==> FieldInHierarchy(cur.value, names) == FieldInHierarchy(t, names)
      invariant field.None? && cur.None? ==> FieldInHierarchy(t, names).None?
      decreases if cur.Some? then Depth(cur.value) else 0
    {
      field := FirstDeclared(cur.value.fields, FieldMember, names);
      cur := cur.value.baseType;
    }
  }

  /** Reads a boolean through the first member of a `??` chain, provided
      that member is declared `bool`; None when there is no such member or
      the read throws. */
  function ReadFlag(w: World, obj: ObjId, m: Option<Member>): Option<bool> {
    if m.Some? && m.value.valueType == BoolType then w.readBool(obj, m.value) else None
  }

  /** IsMainCharacter (metalslugvoice.cs) and IsLocalPlayer (msvoice.cs):
      the property chain first, then the field chain, then `fallback`. */
  function ProbeFlag(w: World, obj: Value, propNames: seq<string>, fieldNames: seq<string>, fallback: bool): (r: bool)
    ensures obj.Null? ==> !r
    ensures obj.Ref? && r != fallback ==>
      || ReadFlag(w, obj.id, FirstDeclared(obj.ty.properties, PropertyMember, propNames)).Some?
      || ReadFlag(w, obj.id, FirstDeclared(obj.ty.fields, FieldMember, fieldNames)).Some?
  {
    if obj.Null? then false
    else
      var fromProp := ReadFlag(w, obj.id, FirstDeclared(obj.ty.properties, PropertyMember, propNames));
      if fromProp.Some? then fromProp.value
      else
        var fromField := ReadFlag(w, obj.id, FirstDeclared(obj.ty.fields, FieldMember, fieldNames));
        if fromField.Some? then fromField.value
        else fallback
  }

  /** When the object declares none of the names, the probe gives its fallback. */
  lemma ProbeFlagFallback(w: World, obj: Value, propNames: seq<string>, fieldNames: seq<string>, fallback: bool)
    requires obj.Ref?
    requires forall i :: 0 <= i < |propNames| ==> propNames[i] !in obj.ty.properties
    requires forall i :: 0 <= i < |fieldNames| ==> fieldNames[i] !in obj.ty.fields
    ensures ProbeFlag(w, obj, propNames, fieldNames, fallback) == fallback
  {
  }

  /** A successful `bool` read of the first declared property decides the
      probe, whatever the fields say. */
  lemma ProbeFlagFirstProperty(w: World, obj: Value, propNames: seq<string>, fieldNames: seq<string>, fallback: bool, b: bool)
    requires obj.Ref?
    requires ReadFlag(w, obj.id, FirstDeclared(obj.ty.properties, PropertyMember, propNames)) == Some(b)
    ensures ProbeFlag(w, obj, propNames, fieldNames, fallback) == b
  {
  }

  /** When the property chain gives no successful `bool` read, a successful
      `bool` read of the first declared field decides the probe. */
  lemma ProbeFlagFieldDecides(w: World, obj: Value, propNames: seq<string>, fieldNames: seq<string>, fallback: bool, b: bool)
    requires obj.Ref?
    requires ReadFlag(w, obj.id, FirstDeclared(obj.ty.properties, PropertyMember, propNames)).None?
    requires ReadFlag(w, obj.id, FirstDeclared(obj.ty.fields, FieldMember, fieldNames)) == Some(b)
    ensures ProbeFlag(w, obj, propNames, fieldNames, fallback) == b
  {
  }

  /** When neither chain gives a successful `bool` read, the fallback
      decides, even if some names are declared. */
  lemma ProbeFlagNoReadFallback(w: World, obj: Value, propNames: seq<string>, fieldNames: seq<string>, fallback: bool)
    requires obj.Ref?
    requires ReadFlag(w, obj.id, FirstDeclared(obj.ty.properties, PropertyMember, propNames)).None?
    requires ReadFlag(w, obj.id, FirstDeclared(obj.ty.fields, FieldMember, fieldNames)).None?
    ensures ProbeFlag(w, obj, propNames, fieldNames, fallback) == fallback
  {
  }

  /** The `??` chain stops at the first declared name even when that member
      is not `bool`: a `bool` property under a later name is never read. */
  lemma ProbeFlagShadowed(w: World, obj: Value, propNames: seq<string>, fallback: bool)
    requires obj.Ref? && |propNames| >= 2
    requires propNames[0] in obj.ty.properties && obj.ty.properties[propNames[0]] != BoolType
    requires propNames[1] in obj.ty.properties && obj.ty.properties[propNames[1]] == BoolType
    ensures ProbeFlag(w, obj, propNames, [], fallback) == fallback
  {
  }

  // ---------------------------------------------------------------------
  // TypeID member cache (GetTypeIdFromItemEntry)
  // ---------------------------------------------------------------------

  const TypeIdNames: seq<string> := ["TypeID", "typeID"]

  /** The uncached lookup: the `TypeID ?? typeID` property if it is an `int`,
      otherwise the `TypeID ?? typeID` field if it is an `int`, otherwise
      nothing. */
  function ResolveTypeIdMember(t: TypeDesc): (r: Option<Member>)
    ensures r.Some? ==> r.value.valueType == IntType && r.value.name in TypeIdNames
    ensures r.Some? ==> r.value.name in (if r.value.kind == PropertyMember then t.properties else t.fields)
    ensures var p := FirstDeclared(t.properties, PropertyMember, TypeIdNames);
      p.Some? && p.value.valueType == IntType ==> r == p
    ensures var p := FirstDeclared(t.properties, PropertyMember, TypeIdNames);
      var f := FirstDeclared(t.fields, FieldMember, TypeIdNames);
      r.None? <==> !(p.Some? && p.value.valueType == IntType) && !(f.Some? && f.value.valueType == IntType)
    ensures var p := FirstDeclared(t.properties, PropertyMember, TypeIdNames);
      var f := FirstDeclared(t.fields, FieldMember, TypeIdNames);
      !(p.Some? && p.value.valueType == IntType) && f.Some? && f.value.valueType == IntType ==> r == f
  {
    var p := FirstDeclared(t.properties, PropertyMember, TypeIdNames);
    if p.Some? && p.value.valueType == IntType then p
    else
      var f := FirstDeclared(t.fields, FieldMember, TypeIdNames);
      if f.Some? && f.value.valueType == IntType then f else None
  }

  /** What GetTypeIdFromItemEntry returns for an item: null for a null item,
      for a type without an `int` TypeID member, or when the read throws. */
  function TypeIdOf(w: World, item: Value): (r: Option<int>)
    ensures r.Some? ==> item.Ref? && ResolveTypeIdMember(item.ty).Some?
  {
    if item.Null? then None
    else
      var m := ResolveTypeIdMember(item.ty);
      if m.None? then None else w.readInt(item.id, m.value)
  }

  /** The TypeID of the item an agent holds: the locator's result run
      through GetTypeIdFromItemEntry; None when either finds nothing. */
  function AgentTypeId(w: World, agent: Value): (r: Option<int>)
    ensures r.Some? ==> ItemOfAgent(w, agent).Some? && IsItem(ItemOfAgent(w, agent).value)
  {
    match ItemOfAgent(w, agent)
    case None => None
    case Some(item) => TypeIdOf(w, item)
  }

  /** The cache `c1` grew from `c0`: no type was dropped.  With the
      cache's invariant, which counts one lookup per cached type, growth
      means every added type was resolved exactly once (LookupsCountNewTypes)
      and every kept entry is unchanged. */
  predicate CacheGrew(c0: map<TypeDesc, Option<Member>>, c1: map<TypeDesc, Option<Member>>) {
    c0.Keys <= c1.Keys
  }

  /** Between two valid states of the cache, the lookups made are exactly
      the types added. */
  lemma LookupsCountNewTypes(c0: map<TypeDesc, Option<Member>>, n0: nat, c1: map<TypeDesc, Option<Member>>, n1: nat)
    requires n0 == |c0| && n1 == |c1| && CacheGrew(c0, c1)
    ensures n1 == n0 + |c1.Keys - c0.Keys|
  {
    assert c1.Keys == c0.Keys + (c1.Keys - c0.Keys);
    assert c0.Keys * (c1.Keys - c0.Keys) == {};
    assert |c0.Keys| == |c0| && |c1.Keys| == |c1|;
  }

  /** The cache after GetTypeIdFromItemEntry has run on the found item, if
      any: the item's runtime type is resolved and kept. */
  function CacheAfterLookup(c: map<TypeDesc, Option<Member>>, item: Option<Value>): map<TypeDesc, Option<Member>> {
    if item.Some? && item.value.Ref? then c[item.value.ty := ResolveTypeIdMember(item.value.ty)] else c
  }

  /** `_itemTypeIdMemberCache`: the TypeID member of each runtime type seen so
      far, absence included.  `lookups` counts reflective resolutions. */
  class TypeIdCache {
    var cache: map<TypeDesc, Option<Member>>
    var lookups: nat

    /** Every cached entry is what the uncached lookup gives for that type. */
    ghost predicate Valid()
      reads this
    {
      && lookups == |cache|
      && forall t :: t in cache ==> cache[t] == ResolveTypeIdMember(t)
    }

    constructor ()
      ensures Valid() && cache == map[] && lookups == 0
    {
      cache := map[];
      lookups := 0;
    }

    /** GetTypeIdFromItemEntry.  A type is resolved at most once; a cached
        entry, absence included, is reused without a new lookup. */
    method GetTypeId(w: World, item: Value) returns (id: Option<int>)
      requires Valid()
      modifies this
      ensures Valid()
      ensures id == TypeIdOf(w, item)
      ensures item.Null? ==> cache == old(cache) && lookups == old(lookups)
      ensures item.Ref? ==> cache == old(cache)[item.ty := ResolveTypeIdMember(item.ty)]
      ensures item.Ref? ==> lookups == old(lookups) + (if item.ty in old(cache) then 0 else 1)
      ensures item.Ref? && item.ty in old(cache) ==> cache == old(cache)
      ensures CacheGrew(old(cache), cache)
    {
      if item.Null? { return None; }
      var t := item.ty;
      var cached: Option<Member>;
      if t in cache {
        cached := cache[t];
      } else {
        cached := ResolveTypeIdMember(t);
        lookups := lookups + 1;
        cache := cache[t := cached];
      }
      if cached.None? { return None; }
      id := w.readInt(item.id, cached.value);
    }

    /** GetItemFromAgent followed by GetTypeIdFromItemEntry: the TypeID of
        the item an agent holds, with the cache consulted only when the
        locator found an item. */
    method GetAgentTypeId(w: World, agent: Value) returns (id: Option<int>)
      requires Valid()
      modifies this
      ensures Valid()
      ensures id == AgentTypeId(w, agent)
      ensures cache == CacheAfterLookup(old(cache), ItemOfAgent(w, agent))
      ensures CacheGrew(old(cache), cache)
    {
      var item := FindItemFromAgent(w, agent);
      if item.None? {
        return None;
      }
      id := GetTypeId(w, item.value);
    }
  }
}
