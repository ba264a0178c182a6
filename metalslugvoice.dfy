/** The manager of metalslugvoice.cs: it locks one reload action as the
    entry point to the player's character, follows it to the gun the
    character holds, and plays a cue when that gun instance changes. */
module MetalSlugVoice {
  import opened Wrappers
  import opened Host
  import opened Classifier
  import opened Locator
  import opened Members
  import opened Selection

  const ReloadSearchInterval: real := 1.0
  const GunCheckInterval: real := 0.15

  const ControllerNames: seq<string> := ["characterController", "CharacterController"]
  const AgentHolderNames: seq<string> := ["agentHolder", "AgentHolder"]
  const CurrentGunNames: seq<string> := ["CurrentHoldGun", "currentHoldGun"]
  const MainFlagProperties: seq<string> := ["IsMainCharacter", "isMainCharacter", "IsLocalPlayer", "isLocalPlayer", "IsMine"]
  const MainFlagFields: seq<string> := ["IsMainCharacter", "isMainCharacter", "IsLocalPlayer", "isLocalPlayer"]

  // ---------------------------------------------------------------------
  // The destroyed-object test
  // ---------------------------------------------------------------------

  /** IsUnityObjectDestroyed as written: both comparisons go through
      UnityEngine.Object's overloaded operators, so the conjunction asks
      for an object that is null and not null at once. */
  function DestroyedAsWritten(w: World, obj: Value): (r: bool)
    ensures !r
  {
    var u := AsUnityObject(obj);
    !UnityNull(w, u) && UnityNull(w, u)
  }

  /** The intended test: the program still holds a reference whose native
      object Unity reports as gone. */
  function IsUnityObjectDestroyed(w: World, obj: Value): (r: bool)
    ensures r <==> AsUnityObject(obj).Ref? && UnityNull(w, AsUnityObject(obj))
  {
    obj.Ref? && obj.ty.isUnityObject && !w.alive(obj.id)
  }

  /** A type that is a UnityEngine.Object and nothing else. */
  function ActionType(): TypeDesc {
    TypeDesc("CA_Reload", "", false, false, false, false, false, true, true, map[], map[], None)
  }

  /** A destroyed reload action: the intended test reports it, the written
      one does not, so the reset in Update never runs. */
  lemma DestroyedActionUndetected()
    ensures var w := World(map[], _ => false, (_, _) => None, (_, _) => None, (_, _) => None);
            var action := Ref(7, ActionType(), []);
            IsUnityObjectDestroyed(w, action) && !DestroyedAsWritten(w, action)
  {
  }

  // ---------------------------------------------------------------------
  // Following the reload action to the gun
  // ---------------------------------------------------------------------

  /** GetCharacterControllerFromAction: the `characterController` field
      declared on the reload type or one of its bases, read from the action. */
  function ControllerOf(w: World, reloadType: TypeDesc, action: Value): (r: Value)
    ensures UnityNull(w, action) ==> r.Null?
    ensures r.Ref? ==> FieldInHierarchy(reloadType, ControllerNames).Some?
  {
    if UnityNull(w, action) then Null
    else match FieldInHierarchy(reloadType, ControllerNames)
      case None => Null
      case Some(f) => w.readRef(action.id, f).GetOr(Null)
  }

  /** IsMainCharacter: the first declared of five property names, then of
      four field names; false when no `bool` member answers. */
  predicate IsMainCharacter(w: World, controller: Value)
    ensures IsMainCharacter(w, controller) ==> controller.Ref?
  {
    ProbeFlag(w, controller, MainFlagProperties, MainFlagFields, false)
  }

  /** A reload action the scan considers (`action == null` is Unity's test). */
  predicate MainEligible(w: World, action: Value) {
    !UnityNull(w, action)
  }

  /** A reload action whose controller is flagged as the main character. */
  predicate MainFlagged(w: World, reloadType: TypeDesc, action: Value) {
    IsMainCharacter(w, ControllerOf(w, reloadType, action))
  }

  /** The two tests of the reload scan, as values to hand to the selection. */
  function Eligibility(w: World): Value -> bool {
    a => MainEligible(w, a)
  }

  function MainFlagging(w: World, reloadType: TypeDesc): Value -> bool {
    a => MainFlagged(w, reloadType, a)
  }

  /** A read through a cached member; null when there is no object, no
      member, or the read throws. */
  function ReadThrough(w: World, obj: Value, m: Option<Member>): Value {
    if obj.Null? || m.None? then Null else w.readRef(obj.id, m.value).GetOr(Null)
  }

  /** GetCurrentGunAgentFromReload over given member caches: action, then
      controller, then agent holder, then the holder's current gun, which
      must be a UnityEngine.Object. */
  function GunAgentVia(w: World, reload: Value, reloadType: TypeDesc,
                       holderField: Option<Member>, gunProp: Option<Member>, gunField: Option<Member>): (r: Value)
    ensures r.Ref? ==> r.ty.isUnityObject
    ensures UnityNull(w, reload) ==> r.Null?
    ensures ControllerOf(w, reloadType, reload).Null? || holderField.None? ==> r.Null?
  {
    var controller := ControllerOf(w, reloadType, reload);
    var holder := ReadThrough(w, controller, holderField);
    var gun := if holder.Null? then Null
               else if gunProp.Some? then ReadThrough(w, holder, gunProp)
               else ReadThrough(w, holder, gunField);
    AsUnityObject(gun)
  }

  /** The class of the gun an agent holds; NoClass when no item or no TypeID
      is found. */
  function AgentClass(w: World, agent: Value): (r: VoiceClass)
    ensures r != Grenade
    ensures r != NoClass ==> AgentTypeId(w, agent).Some?
  {
    match AgentTypeId(w, agent)
    case None => NoClass
    case Some(typeId) => Classify(MetalSlugConfig, typeId)
  }

  // ---------------------------------------------------------------------
  // The change detector
  // ---------------------------------------------------------------------

  /** `_lastGunAgent` (by identity) and `_lastGunClass`. */
  datatype GunState = GunState(lastAgent: Option<ObjId>, lastClass: VoiceClass)

  /** The new state and the cues played by one check. */
  datatype GunOutcome = GunOutcome(state: GunState, cues: seq<VoiceClass>)

  /** The classes this file has a cue for. */
  predicate Audible(c: VoiceClass) {
    c == AR || c == Shotgun || c == Sniper
  }

  /** One CheckCurrentGunAndPlayVoice, given the live gun agent (None when
      Unity reports it null) and the class of what it holds. */
  function GunStep(s: GunState, agent: Option<ObjId>, cls: VoiceClass): (r: GunOutcome)
    ensures agent.None? ==> r == GunOutcome(GunState(None, NoClass), [])
    ensures agent.Some? && agent == s.lastAgent ==> r == GunOutcome(s, [])
    ensures agent.Some? && agent != s.lastAgent ==> r.state == GunState(agent, cls)
    ensures r.cues != [] <==> agent.Some? && agent != s.lastAgent && Audible(cls)
    ensures r.cues != [] ==> r.cues == [cls]
  {
    if agent.None? then GunOutcome(GunState(None, NoClass), [])
    else if agent == s.lastAgent then GunOutcome(s, [])
    else GunOutcome(GunState(agent, cls), if Audible(cls) then [cls] else [])
  }

  /** Successive checks. */
  function GunRun(s: GunState, checks: seq<(Option<ObjId>, VoiceClass)>): GunOutcome
    decreases |checks|
  {
    if checks == [] then GunOutcome(s, [])
    else
      var first := GunStep(s, checks[0].0, checks[0].1);
      var rest := GunRun(first.state, checks[1..]);
      GunOutcome(rest.state, first.cues + rest.cues)
  }

  /** Once an instance is the last agent, further checks that see the same
      instance play nothing and change nothing, whatever class is reported. */
  lemma {:induction false} SameAgentSilent(s: GunState, checks: seq<(Option<ObjId>, VoiceClass)>)
    requires s.lastAgent.Some?
    requires forall i :: 0 <= i < |checks| ==> checks[i].0 == s.lastAgent
    ensures GunRun(s, checks) == GunOutcome(s, [])
  {
    if checks != [] {
      SameAgentSilent(s, checks[1..]);
    }
  }

  /** Holding one gun instance for any number of checks plays at most one
      cue: the first check that sees it. */
  lemma {:induction false} SteadyAgentPlaysAtMostOnce(s: GunState, agent: ObjId, checks: seq<(Option<ObjId>, VoiceClass)>)
    requires forall i :: 0 <= i < |checks| ==> checks[i].0 == Some(agent)
    ensures |GunRun(s, checks).cues| <= 1
    ensures s.lastAgent == Some(agent) ==> GunRun(s, checks).cues == []
  {
    if checks != [] {
      var first := GunStep(s, checks[0].0, checks[0].1);
      SameAgentSilent(first.state, checks[1..]);
    }
  }

  /** Two different instances of the same class each play: the detector
      keys on the instance, not on the class. */
  lemma NewInstanceSameClassPlaysAgain()
    ensures GunRun(GunState(None, NoClass), [(Some(1), AR), (Some(2), AR)]).cues == [AR, AR]
    ensures GunRun(GunState(None, NoClass), [(Some(1), AR), (None, NoClass), (Some(1), AR)]).cues == [AR, AR]
  {
  }

  // ---------------------------------------------------------------------
  // One frame, as a function of the manager's fields
  // ---------------------------------------------------------------------

  /** `_actionCharacterControllerField`, `_controllerAgentHolderField`,
      `_holderCurrentGunProp` and `_holderCurrentGunField`. */
  datatype Caches = Caches(controllerField: Option<Member>, agentHolderField: Option<Member>,
                           holderGunProp: Option<Member>, holderGunField: Option<Member>)

  /** The manager's fields, the TypeID cache aside. */
  datatype State = State(mainReload: Value, nextReloadSearchTime: real, gun: GunState,
                         nextGunCheckTime: real, caches: Caches, played: seq<VoiceClass>)

  /** The caches once GetCurrentGunAgentFromReload has followed `reload`:
      the controller field is looked up for a live action, the holder field
      on the first controller met, and the gun member (property first) on
      the first holder met while neither is known. */
  function FillCaches(w: World, reloadType: TypeDesc, reload: Value, c: Caches): Caches {
    var controller := ControllerOf(w, reloadType, reload);
    var holderField := if c.agentHolderField.None? && controller.Ref?
                       then FieldInHierarchy(controller.ty, AgentHolderNames) else c.agentHolderField;
    var holder := ReadThrough(w, controller, holderField);
    var prop := if holder.Ref? && c.holderGunProp.None? && c.holderGunField.None?
                then FirstDeclared(holder.ty.properties, PropertyMember, CurrentGunNames) else c.holderGunProp;
    var field := if holder.Ref? && c.holderGunProp.None? && c.holderGunField.None?
                 then (if prop.None? then FirstDeclared(holder.ty.fields, FieldMember, CurrentGunNames) else None)
                 else c.holderGunField;
    Caches(if UnityNull(w, reload) then c.controllerField else FieldInHierarchy(reloadType, ControllerNames),
           holderField, prop, field)
  }

  /** The identity the detector compares: None for an agent Unity reports null. */
  function SeenAgent(w: World, agent: Value): Option<ObjId> {
    if UnityNull(w, agent) then None else Some(agent.id)
  }

  /** CheckCurrentGunAndPlayVoice: fill the caches, follow the locked action
      to its gun agent, and let GunStep decide. */
  function Checked(w: World, reloadType: TypeDesc, s: State): State {
    var c := FillCaches(w, reloadType, s.mainReload, s.caches);
    var agent := GunAgentVia(w, s.mainReload, reloadType, c.agentHolderField, c.holderGunProp, c.holderGunField);
    var o := GunStep(s.gun, SeenAgent(w, agent), AgentClass(w, agent));
    s.(caches := c, gun := o.state, played := s.played + o.cues)
  }

  /** TryResolveMainReload: lock the flagged-or-first live action; with no
      live action the locked one stays.  Probing any live action fills the
      controller-field cache. */
  function Resolved(w: World, reloadType: TypeDesc, reloads: seq<Value>, s: State): State {
    var pick := SelectFlaggedOrFirst(reloads, Eligibility(w), MainFlagging(w, reloadType));
    s.(mainReload := if pick.Some? then reloads[pick.value] else s.mainReload,
       caches := s.caches.(controllerField := if FirstIndex(reloads, Eligibility(w)).Some?
                                              then FieldInHierarchy(reloadType, ControllerNames)
                                              else s.caches.controllerField))
  }

  /** Step 1 of Update: search while no action is locked and the search is due. */
  function SearchStep(w: World, reloadType: TypeDesc, now: real, reloads: seq<Value>, s: State): State {
    if UnityNull(w, s.mainReload) && now >= s.nextReloadSearchTime
    then Resolved(w, reloadType, reloads, s.(nextReloadSearchTime := now + ReloadSearchInterval))
    else s
  }

  /** Step 2 of Update: check the gun while an action is locked and the check is due. */
  function CheckStep(w: World, reloadType: TypeDesc, now: real, s: State): State {
    if !UnityNull(w, s.mainReload) && now >= s.nextGunCheckTime
    then Checked(w, reloadType, s.(nextGunCheckTime := now + GunCheckInterval))
    else s
  }

  /** What the reset at the top of Update clears. */
  function Cleared(s: State): State {
    State(Null, 0.0, GunState(None, NoClass), s.nextGunCheckTime, Caches(None, None, None, None), s.played)
  }

  /** The reset as written: `_mainReload != null` is Unity's test, which a
      destroyed action fails, and the destroyed test never holds anyway. */
  function ResetStepAsWritten(w: World, s: State): State {
    if !UnityNull(w, s.mainReload) && DestroyedAsWritten(w, s.mainReload) then Cleared(s) else s
  }

  /** The reset as intended: both comparisons on the reference itself, so
      a locked action that Unity has destroyed is cleared. */
  function ResetStep(w: World, s: State): State {
    if s.mainReload.Ref? && IsUnityObjectDestroyed(w, s.mainReload) then Cleared(s) else s
  }

  /** One Update as written (keys and audio left out). */
  function FrameAsWritten(w: World, reloadType: TypeDesc, now: real, reloads: seq<Value>, s: State): State {
    CheckStep(w, reloadType, now, SearchStep(w, reloadType, now, reloads, ResetStepAsWritten(w, s)))
  }

  /** One Update with the intended reset. */
  function Frame(w: World, reloadType: TypeDesc, now: real, reloads: seq<Value>, s: State): State {
    CheckStep(w, reloadType, now, SearchStep(w, reloadType, now, reloads, ResetStep(w, s)))
  }

  /** The reset guard of Update as written never holds: its first conjunct
      is false for a destroyed action, and its second for every object. */
  lemma ResetNeverRunsAsWritten(w: World, s: State)
    ensures ResetStepAsWritten(w, s) == s
  {
    assert !DestroyedAsWritten(w, s.mainReload);
  }

  /** Correcting only the destroyed test is not enough: the guard's own
      `_mainReload != null` already excludes every destroyed action. */
  lemma ResetGuardDeadWithCorrectedTest(w: World, v: Value)
    ensures !(!UnityNull(w, v) && IsUnityObjectDestroyed(w, v))
  {
  }

  /** As written, a destroyed locked action before the next search is due
      leaves every field as it was: the stale action, gun state and member
      caches all survive the frame. */
  lemma {:induction false} DestroyedActionKeptAsWritten(w: World, reloadType: TypeDesc, now: real, reloads: seq<Value>, s: State)
    requires IsUnityObjectDestroyed(w, s.mainReload) && now < s.nextReloadSearchTime
    ensures FrameAsWritten(w, reloadType, now, reloads, s) == s
  {
    ResetNeverRunsAsWritten(w, s);
  }

  /** With the intended reset, a destroyed locked action is forgotten along
      with the gun state and the member caches, and a new action is searched
      for in the same frame. */
  lemma {:induction false} DestroyedActionReplacedAtOnce(w: World, reloadType: TypeDesc, now: real, reloads: seq<Value>, s: State)
    requires IsUnityObjectDestroyed(w, s.mainReload) && now >= 0.0
    ensures var r := Frame(w, reloadType, now, reloads, s);
            && r.nextReloadSearchTime == now + ReloadSearchInterval
            && r.mainReload == Resolved(w, reloadType, reloads, Cleared(s)).mainReload
            && (r.mainReload.Null? ==> r.gun == GunState(None, NoClass) && r.played == s.played
                                       && r.caches.agentHolderField.None?)
  {
    var c := Cleared(s);
    assert ResetStep(w, s) == c;
    var searched := SearchStep(w, reloadType, now, reloads, c);
    assert searched == Resolved(w, reloadType, reloads, c.(nextReloadSearchTime := now + ReloadSearchInterval));
    if searched.mainReload.Null? {
      assert CheckStep(w, reloadType, now, searched) == searched;
    }
  }

  /** A frame plays at most one cue, and only appends to what was played. */
  lemma {:induction false} FramePlaysAtMostOnce(w: World, reloadType: TypeDesc, now: real, reloads: seq<Value>, s: State)
    ensures var r := Frame(w, reloadType, now, reloads, s);
            |s.played| <= |r.played| <= |s.played| + 1 && r.played[..|s.played|] == s.played
    ensures var r := FrameAsWritten(w, reloadType, now, reloads, s);
            |s.played| <= |r.played| <= |s.played| + 1 && r.played[..|s.played|] == s.played
  {
    var a := SearchStep(w, reloadType, now, reloads, ResetStep(w, s));
    assert a.played == s.played;
    CheckStepPlaysAtMostOnce(w, reloadType, now, a);
    ResetNeverRunsAsWritten(w, s);
    CheckStepPlaysAtMostOnce(w, reloadType, now, SearchStep(w, reloadType, now, reloads, s));
  }

  lemma CheckStepPlaysAtMostOnce(w: World, reloadType: TypeDesc, now: real, s: State)
    ensures var r := CheckStep(w, reloadType, now, s);
            |s.played| <= |r.played| <= |s.played| + 1 && r.played[..|s.played|] == s.played
  {
  }

  /** While the locked action leads to the agent already stored, the check
      plays nothing and keeps the gun state. */
  lemma SameAgentCheckSilent(w: World, reloadType: TypeDesc, now: real, s: State)
    requires var c := FillCaches(w, reloadType, s.mainReload, s.caches);
             var agent := GunAgentVia(w, s.mainReload, reloadType, c.agentHolderField, c.holderGunProp, c.holderGunField);
             SeenAgent(w, agent).Some? && SeenAgent(w, agent) == s.gun.lastAgent
    ensures CheckStep(w, reloadType, now, s).played == s.played
    ensures CheckStep(w, reloadType, now, s).gun == s.gun
  {
  }

  // ---------------------------------------------------------------------
  // The manager
  // ---------------------------------------------------------------------

  class VoiceManager {
    /** `typeof(CA_Reload)`, where the controller field is looked up. */
    const reloadType: TypeDesc
    /** `_itemTypeIdMemberCache`. */
    const typeIds: TypeIdCache

    var mainReload: Value
    var nextReloadSearchTime: real
    var lastGunAgent: Option<ObjId>
    var lastGunClass: VoiceClass
    var nextGunCheckTime: real
    var controllerField: Option<Member>
    var agentHolderField: Option<Member>
    var holderGunProp: Option<Member>
    var holderGunField: Option<Member>
    /** The cues handed to the audio layer, oldest first. */
    var played: seq<VoiceClass>

    /** The member caches hold only what their lookups can produce. */
    ghost predicate ControllerFieldValid()
      reads this`controllerField
    {
      controllerField.Some? ==> controllerField == FieldInHierarchy(reloadType, ControllerNames)
    }

    ghost predicate CachesValid()
      reads this`controllerField, this`agentHolderField, this`holderGunProp, this`holderGunField
    {
      && ControllerFieldValid()
      && (agentHolderField.Some? ==> agentHolderField.value.kind == FieldMember && agentHolderField.value.name in AgentHolderNames)
      && (holderGunProp.Some? ==> holderGunProp.value.kind == PropertyMember && holderGunProp.value.name in CurrentGunNames)
      && (holderGunField.Some? ==> holderGunField.value.kind == FieldMember && holderGunField.value.name in CurrentGunNames)
      && !(holderGunProp.Some? && holderGunField.Some?)
    }

    ghost predicate Valid()
      reads this`controllerField, this`agentHolderField, this`holderGunProp, this`holderGunField, typeIds
    {
      typeIds.Valid() && CachesValid()
    }

    function CachesNow(): Caches
      reads this`controllerField, this`agentHolderField, this`holderGunProp, this`holderGunField
    {
      Caches(controllerField, agentHolderField, holderGunProp, holderGunField)
    }

    /** The fields one frame reads and writes. */
    function Snapshot(): State
      reads this
    {
      State(mainReload, nextReloadSearchTime, GunState(lastGunAgent, lastGunClass), nextGunCheckTime, CachesNow(), played)
    }

    constructor (reloadType: TypeDesc)
      ensures Valid() && fresh(typeIds)
      ensures this.reloadType == reloadType && mainReload == Null
      ensures nextReloadSearchTime == 0.0 && nextGunCheckTime == 0.0
      ensures lastGunAgent == None && lastGunClass == NoClass
      ensures controllerField == None && agentHolderField == None
      ensures holderGunProp == None && holderGunField == None
      ensures played == [] && typeIds.cache == map[]
    {
      this.reloadType := reloadType;
      typeIds := new TypeIdCache();
      mainReload := Null;
      nextReloadSearchTime := 0.0;
      nextGunCheckTime := 0.0;
      lastGunAgent := None;
      lastGunClass := NoClass;
      controllerField := None;
      agentHolderField := None;
      holderGunProp := None;
      holderGunField := None;
      played := [];
    }

    /** GetCharacterControllerFromAction.  The field is looked up on the
        reload type once found; a failed lookup is retried on the next call. */
    method GetCharacterControllerFromAction(w: World, action: Value) returns (controller: Value)
      requires ControllerFieldValid()
      modifies this`controllerField
      ensures ControllerFieldValid()
      ensures controller == ControllerOf(w, reloadType, action)
      ensures controllerField == if UnityNull(w, action) then old(controllerField)
                                 else FieldInHierarchy(reloadType, ControllerNames)
    {
      if UnityNull(w, action) {
        return Null;
      }
      if controllerField.None? {
        var field := FindFieldInHierarchy(reloadType, ControllerNames);
        controllerField := field;
      }
      if controllerField.None? {
        return Null;
      }
      controller := w.readRef(action.id, controllerField.value).GetOr(Null);
    }

    /** The body of the reload scan for one live action: its controller,
        then the main-character probe on it (false for a null controller). */
    method ProbeAction(w: World, action: Value) returns (isMain: bool)
      requires ControllerFieldValid() && !UnityNull(w, action)
      modifies this`controllerField
      ensures ControllerFieldValid()
      ensures isMain == MainFlagged(w, reloadType, action)
      ensures controllerField == FieldInHierarchy(reloadType, ControllerNames)
    {
      var controller := GetCharacterControllerFromAction(w, action);
      if controller.Null? {
        return false;
      }
      isMain := IsMainCharacter(w, controller);
    }

    /** TryResolveMainReload: the first live reload action whose character
        is flagged as the main one, otherwise the first live one; with no
        live action the locked action is left as it was. */
    method TryResolveMainReload(w: World, reloads: seq<Value>)
      requires ControllerFieldValid()
      modifies this`mainReload, this`controllerField
      ensures ControllerFieldValid()
      ensures var pick := SelectFlaggedOrFirst(reloads, Eligibility(w), MainFlagging(w, reloadType));
              mainReload == if pick.Some? then reloads[pick.value] else old(mainReload)
      ensures controllerField == if FirstIndex(reloads, Eligibility(w)).Some?
                                 then FieldInHierarchy(reloadType, ControllerNames) else old(controllerField)
    {
      var eligible := Eligibility(w);
      var flagged := MainFlagging(w, reloadType);
      var fallback: Value := Null;
      var i := 0;
      while i < |reloads|
        invariant 0 <= i <= |reloads|
        invariant ControllerFieldValid() && mainReload == old(mainReload)
        invariant FirstIndex(reloads[..i], eligible).None? ==> fallback == Null
        invariant FirstIndex(reloads[..i], eligible).Some? ==>
                    fallback == reloads[FirstIndex(reloads[..i], eligible).value]
        invariant forall j :: 0 <= j < i ==> !(eligible(reloads[j]) && flagged(reloads[j]))
        invariant controllerField == if FirstIndex(reloads[..i], eligible).Some?
                                     then FieldInHierarchy(reloadType, ControllerNames) else old(controllerField)
      {
        var action := reloads[i];
        FirstIndexExtend(reloads, eligible, i);
        if UnityNull(w, action) {
          NoneFlaggedExtend(reloads, eligible, flagged, i);
          i := i + 1;
          continue;
        }
        if fallback.Null? {
          fallback := action;
        }
        var isMain := ProbeAction(w, action);
        if isMain {
          mainReload := action;
          SelectFlagged(reloads, eligible, flagged, i);
          return;
        }
        NoneFlaggedExtend(reloads, eligible, flagged, i);
        i := i + 1;
      }
      assert reloads[..|reloads|] == reloads;
      SelectFallback(reloads, eligible, flagged);
      if !UnityNull(w, fallback) {
        mainReload := fallback;
      }
    }

    /** GetCurrentGunAgentFromReload.  The agent-holder field is looked up on
        the first controller's type and kept once found; the holder's gun
        member (property first, then field) is looked up while neither is
        known. */
    method GetCurrentGunAgentFromReload(w: World) returns (agent: Value)
      requires CachesValid()
      modifies this`controllerField, this`agentHolderField, this`holderGunProp, this`holderGunField
      ensures CachesValid()
      ensures agent == GunAgentVia(w, mainReload, reloadType, agentHolderField, holderGunProp, holderGunField)
      ensures CachesNow() == FillCaches(w, reloadType, mainReload, old(CachesNow()))
    {
      if UnityNull(w, mainReload) {
        return Null;
      }
      var controller := GetCharacterControllerFromAction(w, mainReload);
      if controller.Null? {
        return Null;
      }
      if agentHolderField.None? {
        var field := FindFieldInHierarchy(controller.ty, AgentHolderNames);
        agentHolderField := field;
      }
      if agentHolderField.None? {
        return Null;
      }
      var read := w.readRef(controller.id, agentHolderField.value);
      if read.None? || read.value.Null? {
        return Null;
      }
      var holder := read.value;
      if holderGunProp.None? && holderGunField.None? {
        holderGunProp := FirstDeclared(holder.ty.properties, PropertyMember, CurrentGunNames);
        if holderGunProp.None? {
          holderGunField := FirstDeclared(holder.ty.fields, FieldMember, CurrentGunNames);
        }
      }
      var gun: Value := Null;
      if holderGunProp.Some? {
        var g := w.readRef(holder.id, holderGunProp.value);
        if g.None? {
          return Null;
        }
        gun := g.value;
      } else if holderGunField.Some? {
        var g := w.readRef(holder.id, holderGunField.value);
        if g.None? {
          return Null;
        }
        gun := g.value;
      }
      // The source's own destroyed test here is DestroyedAsWritten, which
      // never holds; the caller's null test covers a destroyed gun.
      agent := AsUnityObject(gun);
    }

    /** GetItemFromAgent, GetTypeIdFromItemEntry and GetWeaponVoiceClass in
        sequence: the class of the gun a new agent holds. */
    method ClassOfGun(w: World, agent: Value) returns (cls: VoiceClass)
      requires typeIds.Valid()
      modifies typeIds
      ensures typeIds.Valid()
      ensures cls == AgentClass(w, agent)
      ensures typeIds.cache == CacheAfterLookup(old(typeIds.cache), ItemOfAgent(w, agent))
      ensures CacheGrew(old(typeIds.cache), typeIds.cache)
    {
      var typeId := typeIds.GetAgentTypeId(w, agent);
      if typeId.None? {
        return NoClass;
      }
      cls := Classify(MetalSlugConfig, typeId.value);
    }

    /** The second half of CheckCurrentGunAndPlayVoice: one GunStep on the
        agent the chain returned. */
    method ObserveAgent(w: World, agent: Value)
      requires typeIds.Valid()
      modifies this`lastGunAgent, this`lastGunClass, this`played, typeIds
      ensures typeIds.Valid()
      ensures var seen := if UnityNull(w, agent) then None else Some(agent.id);
              var o := GunStep(GunState(old(lastGunAgent), old(lastGunClass)), seen, AgentClass(w, agent));
              lastGunAgent == o.state.lastAgent && lastGunClass == o.state.lastClass && played == old(played) + o.cues
      // the TypeID cache is consulted only for a new instance
      ensures typeIds.cache == if !UnityNull(w, agent) && old(lastGunAgent) != Some(agent.id)
                               then CacheAfterLookup(old(typeIds.cache), ItemOfAgent(w, agent))
                               else old(typeIds.cache)
      ensures CacheGrew(old(typeIds.cache), typeIds.cache)
    {
      if UnityNull(w, agent) {
        lastGunAgent := None;
        lastGunClass := NoClass;
      } else if lastGunAgent != Some(agent.id) {
        // only a change of instance counts as a weapon change
        lastGunAgent := Some(agent.id);
        var newClass := ClassOfGun(w, agent);
        lastGunClass := newClass;
        if Audible(newClass) {
          played := played + [newClass];
        }
      }
    }

    /** CheckCurrentGunAndPlayVoice: one GunStep on the gun the locked action
        leads to, classified through the locator and the TypeID cache. */
    method CheckCurrentGunAndPlayVoice(w: World)
      requires Valid()
      modifies this`controllerField, this`agentHolderField, this`holderGunProp, this`holderGunField
      modifies this`lastGunAgent, this`lastGunClass, this`played, typeIds
      ensures Valid()
      ensures Snapshot() == Checked(w, reloadType, old(Snapshot()))
      ensures CacheGrew(old(typeIds.cache), typeIds.cache)
    {
      var agent := GetCurrentGunAgentFromReload(w);
      ObserveAgent(w, agent);
    }

    /** The reset at the top of Update, as intended: both comparisons on
        the reference itself, so a destroyed locked action clears the action,
        the gun state and all four member caches, and makes the next search
        due at once. */
    method ResetIfDestroyed(w: World)
      requires CachesValid()
      modifies this`mainReload, this`lastGunAgent, this`lastGunClass, this`nextReloadSearchTime
      modifies this`controllerField, this`agentHolderField, this`holderGunProp, this`holderGunField
      ensures CachesValid()
      ensures Snapshot() == ResetStep(w, old(Snapshot()))
    {
      if mainReload.Ref? && IsUnityObjectDestroyed(w, mainReload) {
        mainReload := Null;
        lastGunAgent := None;
        lastGunClass := NoClass;
        controllerField := None;
        agentHolderField := None;
        holderGunProp := None;
        holderGunField := None;
        nextReloadSearchTime := 0.0;
      }
    }

    /** Step 1 of Update: search for the reload action while none is
        locked and the search is due. */
    method SearchIfDue(w: World, now: real, reloads: seq<Value>)
      requires CachesValid()
      modifies this`mainReload, this`controllerField, this`nextReloadSearchTime
      ensures CachesValid()
      ensures Snapshot() == SearchStep(w, reloadType, now, reloads, old(Snapshot()))
    {
      if UnityNull(w, mainReload) && now >= nextReloadSearchTime {
        nextReloadSearchTime := now + ReloadSearchInterval;
        TryResolveMainReload(w, reloads);
      }
    }

    /** Step 2 of Update: check the gun while an action is locked and the
        check is due. */
    method CheckIfDue(w: World, now: real)
      requires Valid()
      modifies this`controllerField, this`agentHolderField, this`holderGunProp, this`holderGunField
      modifies this`lastGunAgent, this`lastGunClass, this`played, this`nextGunCheckTime, typeIds
      ensures Valid()
      ensures Snapshot() == CheckStep(w, reloadType, now, old(Snapshot()))
      ensures CacheGrew(old(typeIds.cache), typeIds.cache)
      ensures now < old(nextGunCheckTime) ==> typeIds.cache == old(typeIds.cache)
    {
      if !UnityNull(w, mainReload) && now >= nextGunCheckTime {
        nextGunCheckTime := now + GunCheckInterval;
        CheckCurrentGunAndPlayVoice(w);
      }
    }

    /** One Update at time `now` as written (keys and audio left out).  Its
        reset never runs (ResetNeverRunsAsWritten), so what remains is the
        search while no action is locked and the gun check while one is. */
    method Update(w: World, now: real, reloads: seq<Value>)
      requires Valid()
      modifies this, typeIds
      ensures Valid()
      ensures Snapshot() == FrameAsWritten(w, reloadType, now, reloads, old(Snapshot()))
      ensures CacheGrew(old(typeIds.cache), typeIds.cache)
    {
      ResetNeverRunsAsWritten(w, Snapshot());
      SearchIfDue(w, now, reloads);
      CheckIfDue(w, now);
    }

    /** One Update with the reset as intended. */
    method UpdateWithReset(w: World, now: real, reloads: seq<Value>)
      requires Valid()
      modifies this, typeIds
      ensures Valid()
      ensures Snapshot() == Frame(w, reloadType, now, reloads, old(Snapshot()))
      ensures CacheGrew(old(typeIds.cache), typeIds.cache)
    {
      ResetIfDestroyed(w);
      SearchIfDue(w, now, reloads);
      CheckIfDue(w, now);
    }
  }
}
