/** The host process as the managers see it: an object graph reached through
    reflection, reads that may throw, and Unity's liveness test.  Nothing here
    is computed by the core; all of it is input. */
module Host {
  import opened Wrappers

  /** Reference identity of a host object. */
  type ObjId = nat

  /** The declared type of a member, as far as the core cares: `bool`, `int`
      or anything else. */
  datatype ClrType = BoolType | IntType | OtherType(name: string)

  datatype MemberKind = PropertyMember | FieldMember

  /** A resolved `PropertyInfo` or `FieldInfo`. */
  datatype Member = Member(kind: MemberKind, name: string, valueType: ClrType)

  /** A runtime `System.Type`.  `properties` and `fields` map each name that
      `GetProperty(name, flags)` / `GetField(name, flags)` finds on this type to
      that member's declared type; `baseType` is `Type.BaseType`. */
  datatype TypeDesc = TypeDesc(
    name: string,
    ns: string,
    isPrimitive: bool,
    isEnum: bool,
    isString: bool,
    isItem: bool,          // assignable to ItemStatsSystem.Item
    isEnumerable: bool,    // implements IEnumerable
    isUnityObject: bool,   // assignable to UnityEngine.Object
    isMonoBehaviour: bool, // assignable to UnityEngine.MonoBehaviour
    properties: map<string, ClrType>,
    fields: map<string, ClrType>,
    baseType: Option<TypeDesc>)

  /** A value held by a field, a property or a collection: null, or a
      reference with its runtime type.  When the type is enumerable, `elems`
      is what enumerating it yields; collections are finite and nest finitely. */
  datatype Value = Null | Ref(id: ObjId, ty: TypeDesc, elems: seq<Value>)

  /** One entry of `Type.GetFields(flags)`: whether it is static, and what
      `GetValue` gives (None when it throws). */
  datatype FieldSlot = FieldSlot(isStatic: bool, read: Option<Value>)

  /** One entry of `Type.GetProperties(flags)`: `CanRead`, the number of index
      parameters, and what `GetValue(obj, null)` gives (None when it throws). */
  datatype PropSlot = PropSlot(canRead: bool, indexParams: nat, read: Option<Value>)

  /** The members of one object, in reflection order. */
  datatype Node = Node(fields: seq<FieldSlot>, props: seq<PropSlot>)

  /** One snapshot of the host during a tick. */
  datatype World = World(
    nodes: map<ObjId, Node>,
    alive: ObjId -> bool,                         // false once Unity has destroyed the object
    readRef: (ObjId, Member) -> Option<Value>,    // GetValue through a member; None when it throws
    readInt: (ObjId, Member) -> Option<int>,      // GetValue cast to int; None when either throws
    readBool: (ObjId, Member) -> Option<bool>)    // GetValue cast to bool; None when either throws

  /** The members of an object; an object the graph does not describe has none. */
  function NodeOf(nodes: map<ObjId, Node>, id: ObjId): Node {
    if id in nodes then nodes[id] else Node([], [])
  }

  /** Unity's overloaded `x == null` on a reference whose static type is a
      UnityEngine.Object: true for a null reference and for a reference to an
      object Unity has destroyed. */
  predicate UnityNull(w: World, v: Value) {
    v.Null? || (v.ty.isUnityObject && !w.alive(v.id))
  }

  /** `obj as UnityEngine.Object`: the same reference, or null when the
      runtime type is not a UnityEngine.Object. */
  function AsUnityObject(v: Value): (r: Value)
    ensures r.Ref? <==> v.Ref? && v.ty.isUnityObject
    ensures r.Ref? ==> r == v
  {
    if v.Ref? && v.ty.isUnityObject then v else Null
  }
}
