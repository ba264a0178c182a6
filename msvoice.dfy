/** The manager of msvoice.cs: it looks for the local player, discovers the
    `ItemAgent_*` component types once, and on every scan plays a cue for
    each agent whose item's TypeID moved to a different voice class. */
module MsVoice {
  import opened Wrappers
  import opened Host
  import opened Text
  import opened Classifier
  import opened Locator
  import opened Members
  import opened Selection

  const PlayerSearchInterval: real := 1.0
  const WeaponScanInterval: real := 0.2

  const LocalFlagProperties: seq<string> := ["IsLocalPlayer", "isLocalPlayer", "IsMine"]
  const LocalFlagFields: seq<string> := ["IsLocalPlayer", "isLocalPlayer"]
  const AgentPrefix: string := "ItemAgent_"

  // ---------------------------------------------------------------------
  // Finding the local player
  // ---------------------------------------------------------------------

  /** One entry of `FindObjectsOfType<MonoBehaviour>()`: the behaviour and
      the name of its GameObject (None when `gameObject` is null). */
  datatype Candidate = Candidate(behaviour: Value, goName: Option<string>)

  /** The filters of the player scan: a live behaviour on a GameObject whose
      name is not empty and mentions "Character" or "Player". */
  predicate PlayerEligible(w: World, c: Candidate) {
    && !UnityNull(w, c.behaviour)
    && c.goName.Some?
    && c.goName.value != ""
    && (Contains(c.goName.value, "Character") || Contains(c.goName.value, "Player"))
  }

  /** IsLocalPlayer: the first declared of three property names, then of two
      field names; true when no `bool` member answers. */
  predicate IsLocalPlayer(w: World, player: Value)
    ensures player.Null? ==> !IsLocalPlayer(w, player)
  {
    ProbeFlag(w, player, LocalFlagProperties, LocalFlagFields, true)
  }

  /** IsLocalPlayer as the source runs it: the property chain, then the
      field chain, each tried only when its member is a `bool` whose read
      does not throw. */
  method CheckLocalPlayer(w: World, player: Value) returns (isLocal: bool)
    ensures isLocal == IsLocalPlayer(w, player)
  {
    if player.Null? {
      return false;
    }
    var prop := FirstDeclared(player.ty.properties, PropertyMember, LocalFlagProperties);
    if prop.Some? && prop.value.valueType == BoolType {
      var value := w.readBool(player.id, prop.value);
      if value.Some? {
        return value.value;
      }
    }
    var field := FirstDeclared(player.ty.fields, FieldMember, LocalFlagFields);
    if field.Some? && field.value.valueType == BoolType {
      var value := w.readBool(player.id, field.value);
      if value.Some? {
        return value.value;
      }
    }
    return true;
  }

  predicate LocalFlagged(w: World, c: Candidate) {
    IsLocalPlayer(w, c.behaviour)
  }

  function PlayerEligibility(w: World): Candidate -> bool {
    c => PlayerEligible(w, c)
  }

  function LocalFlagging(w: World): Candidate -> bool {
    c => LocalFlagged(w, c)
  }

  /** A behaviour that declares none of the flag names counts as the local
      player, so the first eligible candidate wins the scan outright. */
  lemma UnflaggedCandidateIsLocal(w: World, cands: seq<Candidate>, i: nat)
    requires i < |cands| && PlayerEligible(w, cands[i])
    requires forall j :: 0 <= j < i ==> !PlayerEligible(w, cands[j])
    requires forall k :: 0 <= k < |LocalFlagProperties| ==> LocalFlagProperties[k] !in cands[i].behaviour.ty.properties
    requires forall k :: 0 <= k < |LocalFlagFields| ==> LocalFlagFields[k] !in cands[i].behaviour.ty.fields
    ensures SelectFlaggedOrFirst(cands, PlayerEligibility(w), LocalFlagging(w)) == Some(i)
  {
    ProbeFlagFallback(w, cands[i].behaviour, LocalFlagProperties, LocalFlagFields, true);
    SelectFlagged(cands, PlayerEligibility(w), LocalFlagging(w), i);
  }

  // ---------------------------------------------------------------------
  // Discovering the ItemAgent_* types
  // ---------------------------------------------------------------------

  /** A loaded assembly: what `GetTypes()` returns, None when it throws; an
      entry of the array may be null. */
  datatype Assembly = Assembly(types: Option<seq<Option<TypeDesc>>>)

  /** The filter of EnsureItemAgentTypes: a MonoBehaviour type whose name
      starts with `ItemAgent_` (ordinal comparison). */
  predicate IsAgentType(t: TypeDesc) {
    t.isMonoBehaviour && t.name != "" && StartsWith(t.name, AgentPrefix)
  }

  /** The agent types of one assembly, in its order. */
  function AgentTypesIn(types: seq<Option<TypeDesc>>): (r: seq<TypeDesc>)
    decreases |types|
    ensures |r| <= |types|
    ensures forall t :: t in r ==> IsAgentType(t)
  {
    if types == [] then []
    else
      var n := |types| - 1;
      AgentTypesIn(types[..n]) + (if types[n].Some? && IsAgentType(types[n].value) then [types[n].value] else [])
  }

  /** The agent types of one assembly are exactly its non-null entries
      that pass the filter. */
  lemma {:induction false} AgentTypesInMembers(types: seq<Option<TypeDesc>>)
    ensures forall t :: t in AgentTypesIn(types) <==> Some(t) in types && IsAgentType(t)
    decreases |types|
  {
    if types != [] {
      var n := |types| - 1;
      AgentTypesInMembers(types[..n]);
      assert forall o :: o in types <==> o in types[..n] || o == types[n];
    }
  }

  /** What the assembly may contribute: nothing when `GetTypes()` throws. */
  function TypesOf(asm: Assembly): seq<Option<TypeDesc>> {
    asm.types.GetOr([])
  }

  /** The agent types of all assemblies, in assembly order, then type order. */
  function AgentTypes(asms: seq<Assembly>): (r: seq<TypeDesc>)
    decreases |asms|
    ensures forall t :: t in r ==> IsAgentType(t)
  {
    if asms == [] then []
    else AgentTypes(asms[..|asms| - 1]) + AgentTypesIn(TypesOf(asms[|asms| - 1]))
  }

  /** The agent types found are exactly the types that pass the filter in
      some assembly whose `GetTypes()` did not throw. */
  lemma {:induction false} AgentTypesMembers(asms: seq<Assembly>)
    ensures forall t :: t in AgentTypes(asms) <==>
      IsAgentType(t) && exists i :: 0 <= i < |asms| && Some(t) in TypesOf(asms[i])
    decreases |asms|
  {
    if asms != [] {
      var n := |asms| - 1;
      var pre := asms[..n];
      AgentTypesMembers(pre);
      AgentTypesInMembers(TypesOf(asms[n]));
      assert AgentTypes(asms) == AgentTypes(pre) + AgentTypesIn(TypesOf(asms[n]));
      forall t ensures t in AgentTypes(asms) <==>
        IsAgentType(t) && exists i :: 0 <= i < |asms| && Some(t) in TypesOf(asms[i])
      {
        if t in AgentTypes(pre) {
          var i :| 0 <= i < n && Some(t) in TypesOf(pre[i]);
          assert pre[i] == asms[i];
        }
        if IsAgentType(t) && exists i :: 0 <= i < |asms| && Some(t) in TypesOf(asms[i]) {
          var i :| 0 <= i < |asms| && Some(t) in TypesOf(asms[i]);
          if i < n {
            assert pre[i] == asms[i];
          }
        }
      }
    }
  }

  /** An assembly whose `GetTypes()` throws contributes nothing. */
  lemma {:induction false} ThrowingAssemblySkipped(asms: seq<Assembly>, i: nat)
    requires i < |asms| && asms[i].types.None?
    ensures AgentTypes(asms) == AgentTypes(asms[..i] + asms[i + 1..])
    decreases |asms|
  {
    var n := |asms| - 1;
    var rest := asms[..i] + asms[i + 1..];
    if i == n {
      assert rest == asms[..n];
      assert AgentTypesIn(TypesOf(asms[n])) == [];
    } else {
      DropBeforeLast(asms, i);
      ThrowingAssemblySkipped(asms[..n], i);
    }
  }

  /** Dropping an element before the last one keeps the last one last. */
  lemma DropBeforeLast<T>(s: seq<T>, i: nat)
    requires i < |s| - 1
    ensures var rest := s[..i] + s[i + 1..];
      && rest[..|rest| - 1] == s[..|s| - 1][..i] + s[..|s| - 1][i + 1..]
      && rest[|rest| - 1] == s[|s| - 1]
  {
  }

  // ---------------------------------------------------------------------
  // The per-agent change detector
  // ---------------------------------------------------------------------

  /** The class of the previous TypeID stored for an agent; NoClass when
      there is none. */
  function PreviousClass(cfg: Config, last: map<ObjId, int>, id: ObjId): VoiceClass {
    if id in last then Classify(cfg, last[id]) else NoClass
  }

  /** The outcome of one dictionary update: the new table and the cues. */
  datatype Observation = Observation(last: map<ObjId, int>, cues: seq<VoiceClass>)

  /** One agent with a TypeID: a cue when its class is not NoClass and
      differs from the class of the stored TypeID; the stored TypeID is
      overwritten in every case. */
  function Observe(cfg: Config, last: map<ObjId, int>, id: ObjId, typeId: int): (r: Observation)
    ensures r.last == last[id := typeId]
    ensures r.cues != [] <==>
      Classify(cfg, typeId) != NoClass && Classify(cfg, typeId) != PreviousClass(cfg, last, id)
    ensures r.cues != [] ==> r.cues == [Classify(cfg, typeId)]
  {
    var newClass := Classify(cfg, typeId);
    var oldClass := PreviousClass(cfg, last, id);
    Observation(last[id := typeId], if newClass != NoClass && newClass != oldClass then [newClass] else [])
  }

  /** The same agent observed in successive scans with the TypeIDs `typeIds`. */
  function ObserveRun(cfg: Config, last: map<ObjId, int>, id: ObjId, typeIds: seq<int>): (r: Observation)
    decreases |typeIds|
    ensures typeIds == [] ==> r == Observation(last, [])
    ensures typeIds != [] ==> r.last == last[id := typeIds[|typeIds| - 1]]
    ensures |r.cues| <= |typeIds|
  {
    if typeIds == [] then Observation(last, [])
    else
      var n := |typeIds| - 1;
      var before := ObserveRun(cfg, last, id, typeIds[..n]);
      var o := Observe(cfg, before.last, id, typeIds[n]);
      Observation(o.last, before.cues + o.cues)
  }

  /** An agent that keeps reporting TypeIDs of one class plays at most one
      cue, and none when the stored TypeID already had that class. */
  lemma {:induction false} SameClassPlaysAtMostOnce(cfg: Config, last: map<ObjId, int>, id: ObjId, typeIds: seq<int>, c: VoiceClass)
    requires forall i :: 0 <= i < |typeIds| ==> Classify(cfg, typeIds[i]) == c
    ensures |ObserveRun(cfg, last, id, typeIds).cues| <= 1
    ensures PreviousClass(cfg, last, id) == c ==> ObserveRun(cfg, last, id, typeIds).cues == []
    decreases |typeIds|
  {
    if typeIds != [] {
      var n := |typeIds| - 1;
      var before := ObserveRun(cfg, last, id, typeIds[..n]);
      SameClassPlaysAtMostOnce(cfg, last, id, typeIds[..n], c);
      if n > 0 {
        assert before.last[id] == typeIds[n - 1];
        assert PreviousClass(cfg, before.last, id) == c;
      }
    }
  }

  /** One more scan at the end of a run. */
  lemma ObserveRunSnoc(cfg: Config, last: map<ObjId, int>, id: ObjId, typeIds: seq<int>, t: int)
    ensures var before := ObserveRun(cfg, last, id, typeIds);
      ObserveRun(cfg, last, id, typeIds + [t])
        == Observation(before.last[id := t], before.cues + Observe(cfg, before.last, id, t).cues)
  {
    assert (typeIds + [t])[..|typeIds|] == typeIds;
  }

  /** Successive classes AR, AR, Shotgun, Shotgun, unclassified, AR on one
      agent play three cues: AR, Shotgun and AR.  The final AR plays because
      the class of the TypeID stored just before it is none. */
  lemma ReturnAfterUnclassifiedPlaysAgain(cfg: Config, id: ObjId, ar1: int, ar2: int, sg1: int, sg2: int, other: int)
    requires Classify(cfg, ar1) == AR && Classify(cfg, ar2) == AR
    requires Classify(cfg, sg1) == Shotgun && Classify(cfg, sg2) == Shotgun
    requires Classify(cfg, other) == NoClass
    ensures ObserveRun(cfg, map[], id, [ar1, ar2, sg1, sg2, other, ar1]).cues == [AR, Shotgun, AR]
  {
    var r1, r2, r3, r4, r5 := [ar1], [ar1, ar2], [ar1, ar2, sg1], [ar1, ar2, sg1, sg2], [ar1, ar2, sg1, sg2, other];
    assert r1 == [] + [ar1] && r2 == r1 + [ar2] && r3 == r2 + [sg1] && r4 == r3 + [sg2] && r5 == r4 + [other];
    assert [ar1, ar2, sg1, sg2, other, ar1] == r5 + [ar1];
    ObserveRunSnoc(cfg, map[], id, [], ar1);
    ObserveRunSnoc(cfg, map[], id, r1, ar2);
    assert ObserveRun(cfg, map[], id, r2) == Observation(map[id := ar2], [AR]);
    ObserveRunSnoc(cfg, map[], id, r2, sg1);
    assert ObserveRun(cfg, map[], id, r3) == Observation(map[id := sg1], [AR, Shotgun]);
    ObserveRunSnoc(cfg, map[], id, r3, sg2);
    assert ObserveRun(cfg, map[], id, r4) == Observation(map[id := sg2], [AR, Shotgun]);
    ObserveRunSnoc(cfg, map[], id, r4, other);
    assert ObserveRun(cfg, map[], id, r5) == Observation(map[id := other], [AR, Shotgun]);
    ObserveRunSnoc(cfg, map[], id, r5, ar1);
  }

  /** The same run with the TypeIDs of msvoice.cs (238 and 240 are AR, 248
      and 250 Shotgun, 1 is none of them). */
  lemma ReturnAfterUnclassifiedPlaysAgainInMsVoice()
    ensures ObserveRun(MsVoiceConfig, map[], 5, [238, 240, 248, 250, 1, 238]).cues == [AR, Shotgun, AR]
  {
    ReturnAfterUnclassifiedPlaysAgain(MsVoiceConfig, 5, 238, 240, 248, 250, 1);
  }

  // ---------------------------------------------------------------------
  // One scan
  // ---------------------------------------------------------------------

  /** The scan's working state: the `seen` set, `_lastGunTypeId` and the
      cues played so far. */
  datatype ScanState = ScanState(seen: set<ObjId>, last: map<ObjId, int>, cues: seq<VoiceClass>)

  /** `obj as MonoBehaviour`, then FindItemFromAgent and
      GetTypeIdFromItemEntry: None when any of them gives null. */
  function Extract(w: World, obj: Value): Option<int> {
    if obj.Ref? && obj.ty.isMonoBehaviour then AgentTypeId(w, obj) else None
  }

  function Extraction(w: World): Value -> Option<int> {
    v => Extract(w, v)
  }

  /** The ids of the live objects of an enumeration. */
  function LiveIds(w: World, objs: seq<Value>): set<ObjId> {
    set v | v in objs && !UnityNull(w, v) :: v.id
  }

  lemma LiveIdsSnoc(w: World, objs: seq<Value>)
    requires objs != []
    ensures var n := |objs| - 1;
      LiveIds(w, objs) == LiveIds(w, objs[..n]) + (if UnityNull(w, objs[n]) then {} else {objs[n].id})
  {
    var n := |objs| - 1;
    assert forall v :: v in objs <==> v in objs[..n] || v == objs[n];
  }

  /** The two tables agree on `x`. */
  predicate Agrees(a: map<ObjId, int>, b: map<ObjId, int>, x: ObjId) {
    (x in a <==> x in b) && (x in a ==> a[x] == b[x])
  }

  /** The body of the inner loop of ScanItemAgents for one object, with
      `ex` the extraction of its TypeID. */
  function ScanObj(w: World, cfg: Config, ex: Value -> Option<int>, s: ScanState, obj: Value): (r: ScanState)
    ensures r.seen == if UnityNull(w, obj) then s.seen else s.seen + {obj.id}
    ensures UnityNull(w, obj) || obj.id in s.seen || ex(obj).None? ==> r.last == s.last && r.cues == s.cues
  {
    if UnityNull(w, obj) || obj.id in s.seen then s
    else
      var seen := s.seen + {obj.id};
      match ex(obj)
      case None => ScanState(seen, s.last, s.cues)
      case Some(typeId) =>
        var o := Observe(cfg, s.last, obj.id, typeId);
        ScanState(seen, o.last, s.cues + o.cues)
  }

  /** One more object keeps the properties of the loop so far. */
  lemma ScanObjStep(w: World, cfg: Config, ex: Value -> Option<int>, s: ScanState, p: ScanState, obj: Value)
    requires s.seen <= p.seen
    requires forall x :: x !in p.seen - s.seen ==> Agrees(s.last, p.last, x)
    requires |s.cues| <= |p.cues| <= |s.cues| + |p.seen - s.seen| && p.cues[..|s.cues|] == s.cues
    ensures var r := ScanObj(w, cfg, ex, p, obj);
      && (forall x :: x !in r.seen - s.seen ==> Agrees(s.last, r.last, x))
      && |s.cues| <= |r.cues| <= |s.cues| + |r.seen - s.seen| && r.cues[..|s.cues|] == s.cues
  {
    var r := ScanObj(w, cfg, ex, p, obj);
    if !UnityNull(w, obj) && obj.id !in p.seen {
      assert r.seen - s.seen == (p.seen - s.seen) + {obj.id};
      assert |r.seen - s.seen| == |p.seen - s.seen| + 1;
      // only the entry of `obj` may change, and at most one cue is added
      assert r.last == p.last || (ex(obj).Some? && r.last == p.last[obj.id := ex(obj).value]);
      assert |r.cues| <= |p.cues| + 1;
      forall x | x !in r.seen - s.seen ensures Agrees(s.last, r.last, x) {
        assert x !in p.seen - s.seen && x != obj.id;
        assert Agrees(p.last, r.last, x);
      }
    }
    assert r.cues[..|p.cues|] == p.cues;
    assert r.cues[..|s.cues|] == p.cues[..|s.cues|];
  }

  /** The inner loop over a whole enumeration: every live object is seen. */
  function ScanObjs(w: World, cfg: Config, ex: Value -> Option<int>, s: ScanState, objs: seq<Value>): (r: ScanState)
    decreases |objs|
    ensures r.seen == s.seen + LiveIds(w, objs)
  {
    if objs == [] then s
    else
      var n := |objs| - 1;
      LiveIdsSnoc(w, objs);
      ScanObj(w, cfg, ex, ScanObjs(w, cfg, ex, s, objs[..n]), objs[n])
  }

  /** What the inner loop keeps: only the entries of newly seen objects
      change, cues are only appended, and at most one per newly seen
      object. */
  lemma {:induction false} ScanObjsFrame(w: World, cfg: Config, ex: Value -> Option<int>, s: ScanState, objs: seq<Value>)
    ensures var r := ScanObjs(w, cfg, ex, s, objs);
      && (forall x :: x !in r.seen - s.seen ==> Agrees(s.last, r.last, x))
      && |s.cues| <= |r.cues| <= |s.cues| + |r.seen - s.seen| && r.cues[..|s.cues|] == s.cues
    decreases |objs|
  {
    if objs == [] {
      var r := ScanObjs(w, cfg, ex, s, objs);
      assert r == s;
      forall x | x !in r.seen - s.seen ensures Agrees(s.last, r.last, x) { }
      assert r.cues[..|s.cues|] == s.cues;
    } else {
      var n := |objs| - 1;
      ScanObjsFrame(w, cfg, ex, s, objs[..n]);
      var p := ScanObjs(w, cfg, ex, s, objs[..n]);
      ScanObjStep(w, cfg, ex, s, p, objs[n]);
    }
  }

  /** The enumerations of all agent types, one after the other. */
  function Flatten(find: TypeDesc -> seq<Value>, types: seq<TypeDesc>): seq<Value>
    decreases |types|
  {
    if types == [] then [] else Flatten(find, types[..|types| - 1]) + find(types[|types| - 1])
  }

  lemma FlattenSnoc(find: TypeDesc -> seq<Value>, types: seq<TypeDesc>, t: nat)
    requires t < |types|
    ensures Flatten(find, types[..t + 1]) == Flatten(find, types[..t]) + find(types[t])
  {
    assert types[..t + 1][..t] == types[..t];
  }

  /** The bookkeeping after the loops: an entry is kept only when its key
      is still alive and was seen in this scan. */
  function Prune(w: World, last: map<ObjId, int>, seen: set<ObjId>): (r: map<ObjId, int>)
    ensures forall k :: k in r <==> k in last && w.alive(k) && k in seen
    ensures forall k :: k in r ==> r[k] == last[k]
  {
    map k | k in last && w.alive(k) && k in seen :: last[k]
  }

  /** ScanItemAgents over the agent types `types`, where `find` is
      `FindObjectsOfType`: the loops, then the pruning. */
  function Scan(w: World, cfg: Config, ex: Value -> Option<int>, last: map<ObjId, int>, cues: seq<VoiceClass>,
                find: TypeDesc -> seq<Value>, types: seq<TypeDesc>): (r: ScanState)
    ensures r.seen == LiveIds(w, Flatten(find, types))
    ensures forall k :: k in r.last ==> w.alive(k) && k in r.seen
    ensures |cues| <= |r.cues| <= |cues| + |r.seen| && r.cues[..|cues|] == cues
  {
    var s := ScanObjs(w, cfg, ex, ScanState({}, last, cues), Flatten(find, types));
    ScanObjsFrame(w, cfg, ex, ScanState({}, last, cues), Flatten(find, types));
    ScanState(s.seen, Prune(w, s.last, s.seen), s.cues)
  }

  /** One more object at the end of the enumeration. */
  lemma ScanObjsSnoc(w: World, cfg: Config, ex: Value -> Option<int>, s: ScanState, objs: seq<Value>, i: nat)
    requires i < |objs|
    ensures ScanObjs(w, cfg, ex, s, objs[..i + 1]) == ScanObj(w, cfg, ex, ScanObjs(w, cfg, ex, s, objs[..i]), objs[i])
  {
    assert objs[..i + 1][..i] == objs[..i];
  }

  /** Scanning one enumeration after another is scanning their concatenation. */
  lemma {:induction false} ScanObjsAppend(w: World, cfg: Config, ex: Value -> Option<int>, s: ScanState, a: seq<Value>, b: seq<Value>)
    ensures ScanObjs(w, cfg, ex, s, a + b) == ScanObjs(w, cfg, ex, ScanObjs(w, cfg, ex, s, a), b)
    decreases |b|
  {
    if b == [] {
      assert a + b == a;
    } else {
      var n := |b| - 1;
      assert (a + b)[..|a + b| - 1] == a + b[..n];
      ScanObjsAppend(w, cfg, ex, s, a, b[..n]);
    }
  }

  /** An agent whose item or TypeID cannot be extracted keeps its stored
      TypeID through the loops. */
  lemma {:induction false} UnextractedKeepsEntry(w: World, cfg: Config, ex: Value -> Option<int>, s: ScanState, objs: seq<Value>, x: ObjId)
    requires x in s.last
    requires forall i :: 0 <= i < |objs| && objs[i].Ref? && objs[i].id == x ==> ex(objs[i]).None?
    ensures x in ScanObjs(w, cfg, ex, s, objs).last && ScanObjs(w, cfg, ex, s, objs).last[x] == s.last[x]
    decreases |objs|
  {
    if objs != [] {
      var n := |objs| - 1;
      UnextractedKeepsEntry(w, cfg, ex, s, objs[..n], x);
      var p := ScanObjs(w, cfg, ex, s, objs[..n]);
      var v := objs[n];
      if !(UnityNull(w, v) || v.id in p.seen) && v.id != x && ex(v).Some? {
        assert ScanObj(w, cfg, ex, p, v).last == p.last[v.id := ex(v).value];
      }
    }
  }

  /** With the pruning: such an agent keeps its entry when it is alive and
      was enumerated. */
  lemma UnextractedSurvivesScan(w: World, cfg: Config, ex: Value -> Option<int>, last: map<ObjId, int>, cues: seq<VoiceClass>,
                                find: TypeDesc -> seq<Value>, types: seq<TypeDesc>, x: ObjId)
    requires x in last && w.alive(x) && x in LiveIds(w, Flatten(find, types))
    requires var objs := Flatten(find, types);
      forall i :: 0 <= i < |objs| && objs[i].Ref? && objs[i].id == x ==> ex(objs[i]).None?
    ensures x in Scan(w, cfg, ex, last, cues, find, types).last
    ensures Scan(w, cfg, ex, last, cues, find, types).last[x] == last[x]
  {
    UnextractedKeepsEntry(w, cfg, ex, ScanState({}, last, cues), Flatten(find, types), x);
  }

  /** Cutting a sequence after position `k`. */
  lemma SplitAfter<T>(s: seq<T>, k: nat)
    requires k < |s|
    ensures s[..k + 1] + s[k + 1..] == s && s[..k + 1][..k] == s[..k] && s[..k + 1][k] == s[k]
  {
  }

  /** After the first occurrence of a live object whose TypeID was
      extracted, the rest of the scan leaves its entry alone. */
  lemma FirstOccurrenceStored(w: World, cfg: Config, ex: Value -> Option<int>, s: ScanState, objs: seq<Value>, k: nat)
    requires k < |objs| && !UnityNull(w, objs[k]) && ex(objs[k]).Some?
    requires objs[k].id !in ScanObjs(w, cfg, ex, s, objs[..k]).seen
    ensures objs[k].id in ScanObjs(w, cfg, ex, s, objs).last
    ensures ScanObjs(w, cfg, ex, s, objs).last[objs[k].id] == ex(objs[k]).value
  {
    var v := objs[k];
    SplitAfter(objs, k);
    var mid := ScanObjs(w, cfg, ex, s, objs[..k + 1]);
    assert mid == ScanObj(w, cfg, ex, ScanObjs(w, cfg, ex, s, objs[..k]), v);
    ScanObjsAppend(w, cfg, ex, s, objs[..k + 1], objs[k + 1..]);
    ScanObjsFrame(w, cfg, ex, mid, objs[k + 1..]);
    assert Agrees(mid.last, ScanObjs(w, cfg, ex, mid, objs[k + 1..]).last, v.id);
  }

  /** Every enumerated object is a UnityEngine.Object, as FindObjectsOfType
      guarantees. */
  predicate UnityObjects(objs: seq<Value>) {
    forall i :: 0 <= i < |objs| && objs[i].Ref? ==> objs[i].ty.isUnityObject
  }

  /** In the second scan, an agent met for the first time finds the TypeID
      the first scan stored for it. */
  lemma StoredBeforeRescan(w: World, cfg: Config, ex: Value -> Option<int>,
                           last: map<ObjId, int>, cues: seq<VoiceClass>,
                           objs: seq<Value>, cues2: seq<VoiceClass>, k: nat)
    requires k < |objs| && !UnityNull(w, objs[k]) && ex(objs[k]).Some?
    requires objs[k].ty.isUnityObject
    requires var first := ScanObjs(w, cfg, ex, ScanState({}, last, cues), objs);
      objs[k].id !in ScanObjs(w, cfg, ex, ScanState({}, Prune(w, first.last, first.seen), cues2), objs[..k]).seen
    ensures var first := ScanObjs(w, cfg, ex, ScanState({}, last, cues), objs);
      var p := ScanObjs(w, cfg, ex, ScanState({}, Prune(w, first.last, first.seen), cues2), objs[..k]);
      objs[k].id in p.last && p.last[objs[k].id] == ex(objs[k]).value
  {
    var v := objs[k];
    var s0 := ScanState({}, last, cues);
    var first := ScanObjs(w, cfg, ex, s0, objs);
    var start := ScanState({}, Prune(w, first.last, first.seen), cues2);
    var p := ScanObjs(w, cfg, ex, start, objs[..k]);
    assert ScanObjs(w, cfg, ex, s0, objs[..k]).seen == p.seen;
    FirstOccurrenceStored(w, cfg, ex, s0, objs, k);
    assert v in objs;
    assert v.id in first.seen;
    ScanObjsFrame(w, cfg, ex, start, objs[..k]);
    assert Agrees(start.last, p.last, v.id);
  }

  /** An agent that finds its own TypeID stored plays nothing. */
  lemma SilentStep(w: World, cfg: Config, ex: Value -> Option<int>, p: ScanState, v: Value)
    requires !UnityNull(w, v) && v.id !in p.seen && ex(v).Some? ==> v.id in p.last && p.last[v.id] == ex(v).value
    ensures ScanObj(w, cfg, ex, p, v).cues == p.cues
  {
  }

  /** The prefix form of RescanSilent. */
  lemma {:induction false} RescanPrefixSilent(w: World, cfg: Config, ex: Value -> Option<int>,
                                              last: map<ObjId, int>, cues: seq<VoiceClass>,
                                              objs: seq<Value>, cues2: seq<VoiceClass>, k: nat)
    requires UnityObjects(objs)
    requires k <= |objs|
    ensures var first := ScanObjs(w, cfg, ex, ScanState({}, last, cues), objs);
            ScanObjs(w, cfg, ex, ScanState({}, Prune(w, first.last, first.seen), cues2), objs[..k]).cues == cues2
    decreases k
  {
    var first := ScanObjs(w, cfg, ex, ScanState({}, last, cues), objs);
    var start := ScanState({}, Prune(w, first.last, first.seen), cues2);
    if k > 0 {
      RescanPrefixSilent(w, cfg, ex, last, cues, objs, cues2, k - 1);
      SplitAfter(objs, k - 1);
      var p := ScanObjs(w, cfg, ex, start, objs[..k - 1]);
      var v := objs[k - 1];
      assert ScanObjs(w, cfg, ex, start, objs[..k]) == ScanObj(w, cfg, ex, p, v);
      if !UnityNull(w, v) && v.id !in p.seen && ex(v).Some? {
        assert v.ty.isUnityObject;
        StoredBeforeRescan(w, cfg, ex, last, cues, objs, cues2, k - 1);
      }
      SilentStep(w, cfg, ex, p, v);
    }
  }

  /** Scanning twice in an unchanged world, where every enumerated object is
      a UnityEngine.Object (as FindObjectsOfType guarantees): the second
      scan plays nothing, since every agent finds its own TypeID stored. */
  lemma RescanSilent(w: World, cfg: Config, ex: Value -> Option<int>, last: map<ObjId, int>,
                     cues: seq<VoiceClass>, cues2: seq<VoiceClass>,
                     find: TypeDesc -> seq<Value>, types: seq<TypeDesc>)
    requires UnityObjects(Flatten(find, types))
    ensures var first := Scan(w, cfg, ex, last, cues, find, types);
            Scan(w, cfg, ex, first.last, cues2, find, types).cues == cues2
  {
    var objs := Flatten(find, types);
    RescanPrefixSilent(w, cfg, ex, last, cues, objs, cues2, |objs|);
    assert objs[..|objs|] == objs;
  }

  // ---------------------------------------------------------------------
  // The manager
  // ---------------------------------------------------------------------

  /** The scan of every loaded assembly in EnsureItemAgentTypes, in order;
      an assembly whose `GetTypes()` throws is skipped. */
  method CollectAgentTypes(asms: seq<Assembly>) returns (found: seq<TypeDesc>)
    ensures found == AgentTypes(asms)
  {
    found := [];
    var i := 0;
    while i < |asms|
      invariant 0 <= i <= |asms|
      invariant found == AgentTypes(asms[..i])
    {
      assert asms[..i + 1][..i] == asms[..i];
      if asms[i].types.None? {
        // GetTypes threw
        i := i + 1;
        continue;
      }
      var inAssembly := AgentTypesOf(asms[i].types.value);
      found := found + inAssembly;
      i := i + 1;
    }
    assert asms[..|asms|] == asms;
  }

  /** The inner loop over one assembly's types: null entries and types
      that are not item agents are passed over. */
  method AgentTypesOf(types: seq<Option<TypeDesc>>) returns (found: seq<TypeDesc>)
    ensures found == AgentTypesIn(types)
  {
    found := [];
    var j := 0;
    while j < |types|
      invariant 0 <= j <= |types|
      invariant found == AgentTypesIn(types[..j])
    {
      assert types[..j + 1][..j] == types[..j];
      var t := types[j];
      if t.Some? && IsAgentType(t.value) {
        found := found + [t.value];
      }
      j := j + 1;
    }
    assert types[..|types|] == types;
  }

  /** The candidate loop of TryFindLocalPlayerPeriodically: it stops at
      the first eligible candidate flagged as local, remembering on the way
      the first eligible one. `isLocal` tells which of the two was found. */
  method PickPlayer(w: World, cands: seq<Candidate>) returns (pick: Option<nat>, isLocal: bool)
    ensures pick == SelectFlaggedOrFirst(cands, PlayerEligibility(w), LocalFlagging(w))
    ensures pick.Some? ==> isLocal == LocalFlagged(w, cands[pick.value])
  {
    var eligible := PlayerEligibility(w);
    var flagged := LocalFlagging(w);
    var firstCharacter: Option<nat> := None;
    var i := 0;
    while i < |cands|
      invariant 0 <= i <= |cands|
      invariant firstCharacter == FirstIndex(cands[..i], eligible)
      invariant forall j :: 0 <= j < i ==> !(eligible(cands[j]) && flagged(cands[j]))
    {
      var c := cands[i];
      FirstIndexExtend(cands, eligible, i);
      // a dead behaviour, no GameObject, an empty name, or a name
      // without "Character" and "Player" is skipped
      if eligible(c) {
        if firstCharacter.None? {
          firstCharacter := Some(i);
        }
        isLocal := CheckLocalPlayer(w, c.behaviour);
        if isLocal {
          SelectFlagged(cands, eligible, flagged, i);
          return Some(i), true;
        }
      }
      NoneFlaggedExtend(cands, eligible, flagged, i);
      i := i + 1;
    }
    assert cands[..|cands|] == cands;
    SelectFallback(cands, eligible, flagged);
    return firstCharacter, false;
  }

  class VoiceManager {
    /** `_itemTypeIdMemberCache`. */
    const typeIds: TypeIdCache

    var localPlayer: Value
    var localPlayerType: Option<TypeDesc>
    var searchedLocalPlayerOnce: bool
    var nextPlayerSearchTime: real
    /** `_itemAgentTypes`; None while the array is null.  Only
        EnsureItemAgentTypes writes it, and never with a null entry. */
    var itemAgentTypes: Option<seq<TypeDesc>>
    var triedResolveItemAgentTypes: bool
    var nextWeaponScanTime: real
    /** `_lastGunTypeId`, keyed by object identity. */
    var lastGunTypeId: map<ObjId, int>
    /** The cues handed to the audio layer, oldest first. */
    var played: seq<VoiceClass>

    /** The recorded type is the runtime type of the recorded player. */
    ghost predicate PlayerValid()
      reads this`localPlayer, this`localPlayerType
    {
      localPlayer.Ref? ==> localPlayerType == Some(localPlayer.ty)
    }

    /** Every discovered type passed the ItemAgent_ filter. */
    ghost predicate TypesValid()
      reads this`itemAgentTypes
    {
      itemAgentTypes.Some? ==> forall i :: 0 <= i < |itemAgentTypes.value| ==> IsAgentType(itemAgentTypes.value[i])
    }

    ghost predicate Valid()
      reads this`localPlayer, this`localPlayerType, this`itemAgentTypes, typeIds
    {
      typeIds.Valid() && PlayerValid() && TypesValid()
    }

    constructor ()
      ensures Valid() && fresh(typeIds) && typeIds.cache == map[]
      ensures localPlayer == Null && localPlayerType == None && !searchedLocalPlayerOnce
      ensures nextPlayerSearchTime == 0.0 && nextWeaponScanTime == 0.0
      ensures itemAgentTypes == None && !triedResolveItemAgentTypes
      ensures lastGunTypeId == map[] && played == []
    {
      typeIds := new TypeIdCache();
      localPlayer := Null;
      localPlayerType := None;
      searchedLocalPlayerOnce := false;
      nextPlayerSearchTime := 0.0;
      itemAgentTypes := None;
      triedResolveItemAgentTypes := false;
      nextWeaponScanTime := 0.0;
      lastGunTypeId := map[];
      played := [];
    }

    /** TryFindLocalPlayerPeriodically: the search runs at most once per
        interval. */
    method TryFindLocalPlayerPeriodically(w: World, now: real, cands: seq<Candidate>)
      requires PlayerValid()
      modifies this`localPlayer, this`localPlayerType, this`searchedLocalPlayerOnce, this`nextPlayerSearchTime
      ensures PlayerValid()
      ensures PlayerSearchOutcome(w, now, cands, old(nextPlayerSearchTime), old(localPlayer),
                                  old(localPlayerType), old(searchedLocalPlayerOnce))
    {
      if now >= nextPlayerSearchTime {
        nextPlayerSearchTime := now + PlayerSearchInterval;
        SearchLocalPlayer(w, cands);
      }
    }

    /** What TryFindLocalPlayerPeriodically leaves behind, from the state
        before it: nothing changes before `nextPlayerSearchTime`; otherwise
        the timer advances and the search takes the flagged-or-first
        candidate (an unflagged one only while no player is known), or
        raises the searched-once flag when there is none and no player. */
    ghost predicate PlayerSearchOutcome(w: World, now: real, cands: seq<Candidate>, next0: real,
                                        player0: Value, type0: Option<TypeDesc>, once0: bool)
      reads this`localPlayer, this`localPlayerType, this`searchedLocalPlayerOnce, this`nextPlayerSearchTime
    {
      if now < next0 then
        && localPlayer == player0 && localPlayerType == type0
        && searchedLocalPlayerOnce == once0 && nextPlayerSearchTime == next0
      else
        && nextPlayerSearchTime == now + PlayerSearchInterval
        && var pick := SelectFlaggedOrFirst(cands, PlayerEligibility(w), LocalFlagging(w));
           var take := pick.Some? && (LocalFlagged(w, cands[pick.value]) || UnityNull(w, player0));
           && localPlayer == (if take then cands[pick.value].behaviour else player0)
           && localPlayerType == (if take then Some(cands[pick.value].behaviour.ty) else type0)
           && searchedLocalPlayerOnce == (once0 || (pick.None? && UnityNull(w, player0)))
    }

    /** The body of the search: the first eligible candidate flagged as
        local, otherwise (while no player is known) the first eligible one;
        with neither, the searched-once flag is raised. */
    method SearchLocalPlayer(w: World, cands: seq<Candidate>)
      requires PlayerValid()
      modifies this`localPlayer, this`localPlayerType, this`searchedLocalPlayerOnce
      ensures PlayerValid()
      ensures var pick := SelectFlaggedOrFirst(cands, PlayerEligibility(w), LocalFlagging(w));
              var take := pick.Some? && (LocalFlagged(w, cands[pick.value]) || UnityNull(w, old(localPlayer)));
              && localPlayer == (if take then cands[pick.value].behaviour else old(localPlayer))
              && localPlayerType == (if take then Some(cands[pick.value].behaviour.ty) else old(localPlayerType))
              && searchedLocalPlayerOnce == (old(searchedLocalPlayerOnce) || (pick.None? && UnityNull(w, old(localPlayer))))
    {
      var pick, isLocal := PickPlayer(w, cands);
      if pick.Some? && isLocal {
        localPlayer := cands[pick.value].behaviour;
        localPlayerType := Some(cands[pick.value].behaviour.ty);
      } else if UnityNull(w, localPlayer) && pick.Some? {
        localPlayer := cands[pick.value].behaviour;
        localPlayerType := Some(cands[pick.value].behaviour.ty);
      } else if UnityNull(w, localPlayer) && !searchedLocalPlayerOnce {
        searchedLocalPlayerOnce := true;
      }
    }

    /** EnsureItemAgentTypes: runs once, unless a previous run already left
        a non-empty array; the tried flag is set before the scan. */
    method EnsureItemAgentTypes(asms: seq<Assembly>)
      requires TypesValid()
      modifies this`itemAgentTypes, this`triedResolveItemAgentTypes
      ensures TypesValid()
      ensures (old(itemAgentTypes).Some? && old(itemAgentTypes).value != []) || old(triedResolveItemAgentTypes) ==>
                itemAgentTypes == old(itemAgentTypes) && triedResolveItemAgentTypes == old(triedResolveItemAgentTypes)
      ensures !((old(itemAgentTypes).Some? && old(itemAgentTypes).value != []) || old(triedResolveItemAgentTypes)) ==>
                itemAgentTypes == Some(AgentTypes(asms)) && triedResolveItemAgentTypes
    {
      if (itemAgentTypes.Some? && itemAgentTypes.value != []) || triedResolveItemAgentTypes {
        return;
      }
      triedResolveItemAgentTypes := true;
      var found := CollectAgentTypes(asms);
      AgentTypesMembers(asms);
      assert forall i :: 0 <= i < |found| ==> found[i] in found;
      itemAgentTypes := Some(found);
    }

    /** The inner loop's body for one enumerated object. */
    method ScanOne(w: World, obj: Value, seen: set<ObjId>) returns (seen': set<ObjId>)
      requires typeIds.Valid()
      modifies this`lastGunTypeId, this`played, typeIds
      ensures typeIds.Valid()
      ensures ScanState(seen', lastGunTypeId, played)
           == ScanObj(w, MsVoiceConfig, Extraction(w), ScanState(seen, old(lastGunTypeId), old(played)), obj)
      // the TypeID cache is consulted only for a live, unseen MonoBehaviour
      ensures typeIds.cache == if !UnityNull(w, obj) && obj.id !in seen && obj.ty.isMonoBehaviour
                               then CacheAfterLookup(old(typeIds.cache), ItemOfAgent(w, obj))
                               else old(typeIds.cache)
      ensures CacheGrew(old(typeIds.cache), typeIds.cache)
    {
      seen' := seen;
      if UnityNull(w, obj) {
        return;
      }
      if obj.id in seen {
        // already handled under another agent type
        return;
      }
      seen' := seen + {obj.id};
      if !obj.ty.isMonoBehaviour {
        return;
      }
      var typeId := typeIds.GetAgentTypeId(w, obj);
      if typeId.None? {
        return;
      }
      var newClass := Classify(MsVoiceConfig, typeId.value);
      var oldClass := if obj.id in lastGunTypeId then Classify(MsVoiceConfig, lastGunTypeId[obj.id]) else NoClass;
      if newClass != NoClass && newClass != oldClass {
        played := played + [newClass];
      }
      lastGunTypeId := lastGunTypeId[obj.id := typeId.value];
    }

    /** The outer loop of ScanItemAgents: the agent types in order, with
        one `seen` set shared by all of them. */
    method ScanTypes(w: World, find: TypeDesc -> seq<Value>, types: seq<TypeDesc>) returns (seen: set<ObjId>)
      requires typeIds.Valid()
      modifies this`lastGunTypeId, this`played, typeIds
      ensures typeIds.Valid()
      ensures ScanState(seen, lastGunTypeId, played)
           == ScanObjs(w, MsVoiceConfig, Extraction(w), ScanState({}, old(lastGunTypeId), old(played)), Flatten(find, types))
      ensures CacheGrew(old(typeIds.cache), typeIds.cache)
    {
      ghost var s0 := ScanState({}, lastGunTypeId, played);
      seen := {};
      var t := 0;
      while t < |types|
        invariant 0 <= t <= |types| && typeIds.Valid()
        invariant ScanState(seen, lastGunTypeId, played) == ScanObjs(w, MsVoiceConfig, Extraction(w), s0, Flatten(find, types[..t]))
        invariant CacheGrew(old(typeIds.cache), typeIds.cache)
      {
        FlattenSnoc(find, types, t);
        var objs := find(types[t]);
        seen := ScanObjects(w, objs, seen);
        ScanObjsAppend(w, MsVoiceConfig, Extraction(w), s0, Flatten(find, types[..t]), objs);
        t := t + 1;
      }
      assert types[..|types|] == types;
    }

    /** The inner loop of ScanItemAgents: the objects of one agent type,
        in order. */
    method ScanObjects(w: World, objs: seq<Value>, seen: set<ObjId>) returns (seen': set<ObjId>)
      requires typeIds.Valid()
      modifies this`lastGunTypeId, this`played, typeIds
      ensures typeIds.Valid()
      ensures ScanState(seen', lastGunTypeId, played)
           == ScanObjs(w, MsVoiceConfig, Extraction(w), ScanState(seen, old(lastGunTypeId), old(played)), objs)
      ensures CacheGrew(old(typeIds.cache), typeIds.cache)
    {
      ghost var s0 := ScanState(seen, lastGunTypeId, played);
      seen' := seen;
      var i := 0;
      while i < |objs|
        invariant 0 <= i <= |objs| && typeIds.Valid()
        invariant ScanState(seen', lastGunTypeId, played) == ScanObjs(w, MsVoiceConfig, Extraction(w), s0, objs[..i])
        invariant CacheGrew(old(typeIds.cache), typeIds.cache)
      {
        ScanObjsSnoc(w, MsVoiceConfig, Extraction(w), s0, objs, i);
        seen' := ScanOne(w, objs[i], seen');
        i := i + 1;
      }
      assert objs[..|objs|] == objs;
    }

    /** The clean-up after the loops: entries whose key is destroyed or was
        not seen in this scan are collected, then removed. */
    method RemoveStale(w: World, seen: set<ObjId>)
      modifies this`lastGunTypeId
      ensures lastGunTypeId == Prune(w, old(lastGunTypeId), seen)
    {
      if |lastGunTypeId| == 0 {
        return;
      }
      var toRemove: set<ObjId> := {};
      var rest := lastGunTypeId.Keys;
      while rest != {}
        invariant rest <= lastGunTypeId.Keys && toRemove <= lastGunTypeId.Keys
        invariant lastGunTypeId == old(lastGunTypeId)
        invariant forall k :: k in lastGunTypeId && k !in rest ==> (k in toRemove <==> !w.alive(k) || k !in seen)
        invariant forall k :: k in toRemove ==> k !in rest
        decreases |rest|
      {
        var key :| key in rest;
        if !w.alive(key) || key !in seen {
          toRemove := toRemove + {key};
        }
        rest := rest - {key};
      }
      lastGunTypeId := lastGunTypeId - toRemove;
    }

    /** ScanItemAgents: every object of every agent type, each handled once,
        then the stale entries removed. */
    method ScanItemAgents(w: World, find: TypeDesc -> seq<Value>)
      requires typeIds.Valid()
      modifies this`lastGunTypeId, this`played, typeIds
      ensures typeIds.Valid()
      ensures itemAgentTypes.None? || itemAgentTypes.value == [] ==>
                lastGunTypeId == old(lastGunTypeId) && played == old(played)
      ensures itemAgentTypes.Some? && itemAgentTypes.value != [] ==>
                var r := Scan(w, MsVoiceConfig, Extraction(w), old(lastGunTypeId), old(played), find, itemAgentTypes.value);
                lastGunTypeId == r.last && played == r.cues
      ensures itemAgentTypes.None? || itemAgentTypes.value == [] ==> typeIds.cache == old(typeIds.cache)
      ensures CacheGrew(old(typeIds.cache), typeIds.cache)
    {
      if itemAgentTypes.None? || itemAgentTypes.value == [] {
        return;
      }
      ScanAndPrune(w, find, itemAgentTypes.value);
    }

    /** The loops of ScanItemAgents over a known, non-empty type array,
        then the clean-up. */
    method ScanAndPrune(w: World, find: TypeDesc -> seq<Value>, types: seq<TypeDesc>)
      requires typeIds.Valid()
      modifies this`lastGunTypeId, this`played, typeIds
      ensures typeIds.Valid()
      ensures var r := Scan(w, MsVoiceConfig, Extraction(w), old(lastGunTypeId), old(played), find, types);
              lastGunTypeId == r.last && played == r.cues
      ensures CacheGrew(old(typeIds.cache), typeIds.cache)
    {
      var seen := ScanTypes(w, find, types);
      RemoveStale(w, seen);
    }

    /** One Update at time `now` (keys and audio left out): while no player
        is known only the player search runs; otherwise the agents are
        scanned at most once per interval. */
    method Update(w: World, now: real, cands: seq<Candidate>, asms: seq<Assembly>, find: TypeDesc -> seq<Value>)
      requires Valid()
      modifies this, typeIds
      ensures Valid()
      // no scan while the player is missing
      ensures UnityNull(w, old(localPlayer)) ==>
                && lastGunTypeId == old(lastGunTypeId) && played == old(played)
                && nextWeaponScanTime == old(nextWeaponScanTime) && itemAgentTypes == old(itemAgentTypes)
                && triedResolveItemAgentTypes == old(triedResolveItemAgentTypes)
                && PlayerSearchOutcome(w, now, cands, old(nextPlayerSearchTime), old(localPlayer),
                                       old(localPlayerType), old(searchedLocalPlayerOnce))
      // a known player stops the search
      ensures !UnityNull(w, old(localPlayer)) ==>
                && localPlayer == old(localPlayer) && localPlayerType == old(localPlayerType)
                && searchedLocalPlayerOnce == old(searchedLocalPlayerOnce)
                && nextPlayerSearchTime == old(nextPlayerSearchTime)
      ensures !UnityNull(w, old(localPlayer)) ==>
                ScanIfDueOutcome(w, now, asms, find, old(nextWeaponScanTime), old(itemAgentTypes),
                                 old(triedResolveItemAgentTypes), old(lastGunTypeId), old(played))
      // the TypeID cache is consulted only by a scan
      ensures UnityNull(w, old(localPlayer)) ==> typeIds.cache == old(typeIds.cache)
      ensures CacheGrew(old(typeIds.cache), typeIds.cache)
    {
      if UnityNull(w, localPlayer) {
        TryFindLocalPlayerPeriodically(w, now, cands);
        return;
      }
      ScanIfDue(w, now, asms, find);
    }

    /** What the agent scan of Update leaves behind, from the state before
        it: nothing changes before `nextWeaponScanTime`; otherwise the timer
        advances, the agent types are resolved (at most once) and, when
        there are any, the agents are scanned. */
    ghost predicate ScanIfDueOutcome(w: World, now: real, asms: seq<Assembly>, find: TypeDesc -> seq<Value>,
                                     next0: real, types0: Option<seq<TypeDesc>>, tried0: bool,
                                     last0: map<ObjId, int>, played0: seq<VoiceClass>)
      reads this`nextWeaponScanTime, this`itemAgentTypes, this`triedResolveItemAgentTypes
      reads this`lastGunTypeId, this`played
    {
      if now < next0 then
        && lastGunTypeId == last0 && played == played0
        && nextWeaponScanTime == next0 && itemAgentTypes == types0
        && triedResolveItemAgentTypes == tried0
      else
        && nextWeaponScanTime == now + WeaponScanInterval
        && var known := (types0.Some? && types0.value != []) || tried0;
           var types := if known then types0 else Some(AgentTypes(asms));
           && itemAgentTypes == types
           && triedResolveItemAgentTypes == (known ==> tried0)
           && if types.Some? && types.value != [] then
                var r := Scan(w, MsVoiceConfig, Extraction(w), last0, played0, find, types.value);
                lastGunTypeId == r.last && played == r.cues
              else
                lastGunTypeId == last0 && played == played0
    }

    /** The second half of Update, once a player is known. */
    method ScanIfDue(w: World, now: real, asms: seq<Assembly>, find: TypeDesc -> seq<Value>)
      requires typeIds.Valid() && TypesValid()
      modifies this`nextWeaponScanTime, this`itemAgentTypes, this`triedResolveItemAgentTypes
      modifies this`lastGunTypeId, this`played, typeIds
      ensures typeIds.Valid() && TypesValid()
      ensures ScanIfDueOutcome(w, now, asms, find, old(nextWeaponScanTime), old(itemAgentTypes),
                               old(triedResolveItemAgentTypes), old(lastGunTypeId), old(played))
      ensures now < old(nextWeaponScanTime) ==> typeIds.cache == old(typeIds.cache)
      ensures CacheGrew(old(typeIds.cache), typeIds.cache)
    {
      if now >= nextWeaponScanTime {
        nextWeaponScanTime := now + WeaponScanInterval;
        EnsureItemAgentTypes(asms);
        if itemAgentTypes.Some? && |itemAgentTypes.value| > 0 {
          ScanItemAgents(w, find);
        }
      }
    }
  }
}
