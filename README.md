# Weapon voice cues for Escape from Duckov: a Dafny model

The mod plays a voice line ("Heavy Machine Gun!", "Shotgun!", ...) when the
player's weapon changes. It comes in two variants, and each has its own
manager:

- `metalslugvoice.cs` follows a single `CA_Reload` action. Its controller
  leads through an agent holder to the current gun agent. A cue plays when
  that agent instance changes.
- `msvoice.cs` first looks for the local player. It then discovers every
  `ItemAgent_*` component type once, and scans all such agents at a fixed
  interval. A cue plays for each agent whose item TypeID moves to a
  different voice class.

Both variants share the same core:

- **Classifier:** weapon TypeIDs map to AR, Shotgun, Sniper or Grenade,
  with the sets looked up in that order.
- **Locator:** a bounded, depth-first search through reflection for the
  `Item` an agent holds. It uses a maximum depth of 3 and a visited set.
- **TypeID member cache:** each runtime type's `TypeID`/`typeID` member is
  resolved once, and a missing member is cached too.
- **Entry-point selection:** the first eligible candidate that is flagged
  (main character, local player) wins. Otherwise the first eligible
  candidate is used.

The host is a value (`Host.World`): an object graph that reflection walks,
reads that may throw (`None`), and Unity's liveness test. Unity's overloaded
`== null` on a destroyed object is `Host.UnityNull`. Time is a `real`
parameter. Audio playback becomes a `played` sequence of voice classes, one
per cue.

Files:

| file | content |
|---|---|
| `wrappers.dfy` | Option |
| `text.dfy` | ordinal `Contains` and `StartsWith` |
| `host.dfy` | the host world |
| `classifier.dfy` | the classifier and both TypeID tables |
| `selection.dfy` | the first-flagged-or-first choice |
| `members.dfy` | member lookup chains, flag probes, the TypeID member cache |
| `locator.dfy` | the item locator, as functions and as the methods that run it |
| `metalslugvoice.dfy` | the reload-based manager |
| `msvoice.dfy` | the ItemAgent-scanning manager |

Three behaviours of the code that the model states outright:

- **Search order.** The locator searches depth first, so a deeper item
  reached through an earlier field wins over an item held directly by a
  later field (`Locator.DepthFirstNotShallowest`).
- **Cue count.** `msvoice.cs` compares the new class with the class of the
  TypeID stored for the agent, one scan at a time. The classes AR, AR,
  Shotgun, Shotgun, none, AR on one agent therefore play three cues: AR,
  Shotgun and AR. The final AR differs from the class of the TypeID stored
  just before it, which is none, so it plays again (`MsVoice.ReturnAfterUnclassifiedPlaysAgain`).
- **Member caches.** The member caches of `metalslugvoice.cs` are shared by
  all types and do not remember that a member is missing. A `None` entry is
  resolved again on the next call (`MetalSlugVoice.FillCaches`).

## Model

| member | source | states |
|---|---|---|
| Classifier.Classify | msvoice.cs:496-507 | The class is NoClass exactly when the id is in none of the four sets. AR exactly when it is in the AR set. Shotgun, Sniper and Grenade only when the id is in that set and in none of the sets checked before it. |
| Classifier.ClassifyExact | metalslugvoice.cs:528-534 | When the sets are pairwise disjoint, every configured id gets the class of its own set, so the lookup order never matters. |
| Classifier.ConfigsDisjoint | msvoice.cs:55-97 | The AR, Shotgun, Sniper and Grenade tables of both files are pairwise disjoint. |
| Classifier.GrenadeNeverReturned | msvoice.cs:93-97 | The grenade table is empty, and `metalslugvoice.cs` has none, so no TypeID is ever classified Grenade. |
| Classifier.ConfigsDifferOn1362 | metalslugvoice.cs:51-66 | TypeID 1362 is AR in `metalslugvoice.cs` and unclassified in `msvoice.cs`. |
| Selection.FirstIndex | msvoice.cs:263-266 | The index found satisfies the test and no earlier index does. None exactly when no index satisfies it. |
| Selection.SelectFlaggedOrFirst | metalslugvoice.cs:265-289 | The choice is eligible, and None exactly when nothing is eligible. If some eligible candidate is flagged, the choice is flagged and no earlier eligible candidate is. Otherwise nothing eligible comes before the choice. |
| Selection.SelectFlagged | metalslugvoice.cs:276-285 | An eligible flagged candidate with no eligible flagged one before it is the choice. |
| Selection.SelectFallback | metalslugvoice.cs:287-293 | With no eligible flagged candidate, the choice is the first eligible one. |
| Host.AsUnityObject | metalslugvoice.cs:141 | `as UnityEngine.Object` keeps the reference exactly when its runtime type is a UnityEngine.Object, and gives null otherwise. |
| Members.FirstDeclared | msvoice.cs:306-309 | The `??` chain over `GetProperty`/`GetField` names gives None exactly when no name is declared. Otherwise it gives a declared member, of the requested kind, with its declared type. |
| Members.FirstDeclaredIsFirst | msvoice.cs:306-309 | The chain gives the first declared name in list order. |
| Members.FieldInHierarchy | metalslugvoice.cs:303-317 | The result is a field with one of the names. A type that declares a name decides through its own `??` chain. A root that declares none gives none. |
| Members.FieldInHierarchyWalk | metalslugvoice.cs:309-315 | Over the whole `BaseType` chain: nothing is found exactly when no type in the chain declares a name. Otherwise the result is the `??` chain of the nearest type that does, and no type before it declares one. |
| Members.FindFieldInHierarchy | metalslugvoice.cs:309-315 | The `while` loop up the `BaseType` chain finds exactly `FieldInHierarchy`. |
| Members.ProbeFlagFallback | msvoice.cs:298-341 | An object that declares none of the flag names gets the fallback: true for IsLocalPlayer, false for IsMainCharacter. |
| Members.ProbeFlagFirstProperty | msvoice.cs:306-315 | A successful `bool` read of the first declared property is the answer, whatever the fields hold. |
| Members.ProbeFlagFieldDecides | msvoice.cs:322-332 | When the property chain gives no successful `bool` read, a successful `bool` read of the first declared field is the answer. |
| Members.ProbeFlagNoReadFallback | msvoice.cs:339-340 | When neither chain gives a successful `bool` read, the fallback is the answer, even if some names are declared. |
| Members.ProbeFlagShadowed | msvoice.cs:306-315 | A non-`bool` first property hides a `bool` property named later in the chain, so the probe falls through. |
| Members.ResolveTypeIdMember | msvoice.cs:675-699 | The member is an `int` named TypeID or typeID that the type declares. When the first declared property is an `int`, it is the answer. Otherwise an `int` first declared field is the answer; a later property name is never tried. None exactly when neither chain's first member is an `int`. |
| Members.ProbeFlag | msvoice.cs:298-341 | IsLocalPlayer and IsMainCharacter (metalslugvoice.cs:332-380): false for null, then the first declared property if it is a `bool` whose read succeeds, then the first declared field likewise, then the fallback. A null object is never flagged, and only a successful `bool` read can overturn the fallback. `ProbeFlagFirstProperty`, `ProbeFlagFieldDecides` and `ProbeFlagNoReadFallback` state the order. |
| Members.TypeIdOf | msvoice.cs:669-723 | GetTypeIdFromItemEntry without the cache: null for a null item or a type with no `int` TypeID member, otherwise the read, which may throw. A TypeID exists only for a non-null item whose type resolves a TypeID member. `TypeIdCache.GetTypeId` is proved equal to it. |
| Members.AgentTypeId | msvoice.cs:433-437 | The TypeID of the item the locator finds from an agent. A TypeID exists only when the locator found an `Item`. |
| Members.TypeIdCache.constructor | msvoice.cs:110-111 | The cache starts empty, with no lookups. |
| Members.TypeIdCache.GetTypeId | msvoice.cs:669-723 | The result is the uncached TypeID read. The type's entry, absence included, is stored. Reflection runs only on a cache miss. Every entry stays the uncached answer. The cache only grows, and its invariant keeps one lookup per cached type. |
| Members.TypeIdCache.GetAgentTypeId | msvoice.cs:433-437 | GetItemFromAgent, then GetTypeIdFromItemEntry: the result is `AgentTypeId`. Only the type of an item the locator found is added to the cache. |
| Members.LookupsCountNewTypes | msvoice.cs:669-723 | Between two valid states of the cache in which it only grew, the lookups made are exactly the types added: each runtime type is resolved once. |
| Locator.IsTrivialType | msvoice.cs:640-647 | Primitive, enum and string types are never searched. |
| Locator.IsItemRelatedType | msvoice.cs:649-662 | An Item type, a type in a namespace containing "ItemStatsSystem", or a type whose name contains "Item", "ItemEntry", "ItemSetting" or "Inventory" (ordinal tests). |
| Locator.ItemOfAgent | msvoice.cs:513-527 | Nothing for an agent that is null by Unity's test, a destroyed one included (msvoice.cs:515, metalslugvoice.cs:542). Otherwise the item a fresh search from the agent finds, always an `Item`. `FindItemFromAgent` is proved equal to it. |
| Locator.FindInObject | msvoice.cs:529-605 | The search returns an Item or nothing. The visited set only grows, by objects added once each. |
| Locator.FindInFields | msvoice.cs:548-573 | The same for the field loop. |
| Locator.FindInProps | msvoice.cs:576-602 | The same for the property loop. |
| Locator.FindInValue | msvoice.cs:607-638 | The same for one value, including the nested object and the collection elements. |
| Locator.FindInElems | msvoice.cs:627-635 | The same for the elements of an enumerable. |
| Locator.SearchObject | msvoice.cs:529-605 | The recursive method returns exactly the item and the visited set of `FindInObject`. |
| Locator.SearchFields | msvoice.cs:548-573 | The field loop returns what `FindInFields` specifies. |
| Locator.SearchProps | msvoice.cs:576-602 | The property loop returns what `FindInProps` specifies. |
| Locator.SearchValue | msvoice.cs:607-638 | The value step, with the `foreach` over elements, returns what `FindInValue` specifies. |
| Locator.FindItemFromAgent | msvoice.cs:513-527 | An agent that is null by Unity's test gives nothing. Otherwise it searches from depth 0 to maximum depth 3 with an empty visited set. The result is exactly `ItemOfAgent`, an Item or nothing. |
| Locator.ObjectEarlyExits | msvoice.cs:531-541 | Past the maximum depth, the answer is nothing. An Item is itself the answer. A visited object gives nothing. Otherwise the object is marked first. |
| Locator.ValueEarlyExits | msvoice.cs:609-617 | An Item value is the answer. A trivial type, or a type that is neither item-related nor enumerable, gives nothing and marks nothing. |
| Locator.FieldsBeforeProperties | msvoice.cs:548-602 | An item found among the fields is returned before the properties are read. |
| Locator.InstanceFields | msvoice.cs:553-564 | It keeps only instance fields whose read does not throw. |
| Locator.ReadableProps | msvoice.cs:581-593 | It keeps only readable, non-indexed properties whose read does not throw. |
| Locator.SkippedFieldsIgnored | msvoice.cs:553-564 | Static fields and fields whose read throws do not affect the search. |
| Locator.SkippedPropsIgnored | msvoice.cs:581-593 | Unreadable properties, indexers and properties whose read throws do not affect the search. |
| Locator.ItemRelatedSimplified | msvoice.cs:649-662 | The tests for "ItemEntry" and "ItemSetting" are implied by the test for "Item". |
| Locator.ElementsIgnoreDepth | msvoice.cs:627-635 | An Item element of a collection is found whatever the depth, because the Item test comes before any depth test. |
| Locator.DepthFirstNotShallowest | msvoice.cs:548-568 | An item two levels down through the first field wins over an item held directly by the second field. |
| Locator.SelfReferenceEndsEmpty | msvoice.cs:539-540 | An object that refers to itself is searched once, and the search ends with nothing. |
| Locator.ElemValueAsWritten | msvoice.cs:627-635 | The collection path as written, over collections that may hold themselves: an element collection is enumerated again with no depth or visited test. `fuel` stands for the stack. |
| Locator.SelfHoldingCollectionOverflows | metalslugvoice.cs:654-662 | A collection whose only element is itself exhausts every amount of stack: the search as written never returns on it. |
| Locator.ElemValueBounded | msvoice.cs:627-635 | The collection path with the object path's depth bound: a collection past the maximum depth is not enumerated. `fuel` stands for the stack, as in the path as written. |
| Locator.BoundedNeverOverflows | msvoice.cs:627-635 | With more stack frames than the depth budget left, the bounded search never overflows, on every collection graph, self-holding ones included. |
| Locator.SelfHoldingCollectionEndsEmpty | msvoice.cs:627-635 | On a collection that holds itself, the bounded search, given that much stack, ends with nothing found. |
| MetalSlugVoice.DestroyedAsWritten | metalslugvoice.cs:139-143 | The destroyed test as written is false for every object. |
| MetalSlugVoice.IsUnityObjectDestroyed | metalslugvoice.cs:139-143 | The intended test: a UnityEngine.Object reference that Unity reports as null. |
| MetalSlugVoice.DestroyedActionUndetected | metalslugvoice.cs:200-211 | A destroyed reload action is destroyed under the intended test but not under the written one. |
| MetalSlugVoice.ControllerOf | metalslugvoice.cs:299-330 | The controller read from a live action through the `characterController` field found up the reload type's hierarchy. A Unity-null action, or a hierarchy without the field, gives null. |
| MetalSlugVoice.IsMainCharacter | metalslugvoice.cs:332-380 | `ProbeFlag` over five property names and four field names, with fallback false, so only a non-null controller is ever the main character. |
| MetalSlugVoice.GunAgentVia | metalslugvoice.cs:386-468 | The gun agent is a UnityEngine.Object or null. It is null without a live action, a controller or an agent-holder field. |
| MetalSlugVoice.AgentClass | metalslugvoice.cs:491-513 | It is never Grenade. It is a real class only when a TypeID was extracted. |
| MetalSlugVoice.GunStep | metalslugvoice.cs:474-525 | A null agent clears the state. The same instance changes nothing. A new instance is stored with its class. A cue plays exactly for a new instance with an audible class, and it is that class. |
| MetalSlugVoice.SameAgentSilent | metalslugvoice.cs:484-488 | Repeated checks of the stored instance play nothing and change nothing. |
| MetalSlugVoice.SteadyAgentPlaysAtMostOnce | metalslugvoice.cs:474-525 | Checks that all see one instance play at most one cue, and none when it is already stored. |
| MetalSlugVoice.NewInstanceSameClassPlaysAgain | metalslugvoice.cs:484-490 | The detector compares instances, not classes. A new AR agent after an AR agent plays again. So does the same agent after a null check. |
| MetalSlugVoice.FillCaches | metalslugvoice.cs:386-468 | The four member caches after one walk from the locked action. Each cache is filled only when empty: the holder field from the first controller met, and the gun member, property first, from the first holder met. |
| MetalSlugVoice.Checked | metalslugvoice.cs:474-526 | One gun check: the caches are filled, the gun agent is followed, and `GunStep` sets the stored agent, the class and the cues. |
| MetalSlugVoice.Resolved | metalslugvoice.cs:251-297 | The reload search: the flagged-or-first live action is locked. With none live, the locked action stays. |
| MetalSlugVoice.SearchStep | metalslugvoice.cs:233-237 | The search runs only while no live action is locked and its timer is due. It then moves the timer 1.0 past now. |
| MetalSlugVoice.CheckStep | metalslugvoice.cs:240-244 | The gun check runs only while a live action is locked and its timer is due. It then moves the timer 0.15 past now. |
| MetalSlugVoice.ResetStepAsWritten | metalslugvoice.cs:200-211 | The reset as written, guarded by Unity's `_mainReload != null` and the destroyed test as written. |
| MetalSlugVoice.ResetStep | metalslugvoice.cs:200-211 | The reset with both comparisons on the reference: a destroyed locked action clears the action, the gun state and the four caches, and makes the search due at once. |
| MetalSlugVoice.FrameAsWritten | metalslugvoice.cs:197-245 | One Update as written: the reset, the search, then the gun check. |
| MetalSlugVoice.Frame | metalslugvoice.cs:197-245 | One Update with the intended reset. |
| MetalSlugVoice.ResetNeverRunsAsWritten | metalslugvoice.cs:200 | The reset as written leaves every field as it was, for every state. |
| MetalSlugVoice.ResetGuardDeadWithCorrectedTest | metalslugvoice.cs:200 | Even with the destroyed test corrected, the guard's own Unity `!= null` excludes every destroyed action. |
| MetalSlugVoice.DestroyedActionKeptAsWritten | metalslugvoice.cs:197-245 | As written, a destroyed locked action, before the next search is due, leaves the whole state unchanged: the stale action, gun state and caches survive. |
| MetalSlugVoice.DestroyedActionReplacedAtOnce | metalslugvoice.cs:200-237 | With the intended reset, a destroyed action is replaced in the same frame by the search's pick, and the search timer moves 1.0 past now. If nothing live is found, the gun state and the holder cache are cleared and nothing plays. |
| MetalSlugVoice.FramePlaysAtMostOnce | metalslugvoice.cs:197-245 | A frame, either way, plays at most one cue and only appends to what was played. |
| MetalSlugVoice.CheckStepPlaysAtMostOnce | metalslugvoice.cs:240-244 | A gun check plays at most one cue and only appends. |
| MetalSlugVoice.SameAgentCheckSilent | metalslugvoice.cs:484-488 | While the locked action leads to the stored agent, a check plays nothing and keeps the gun state. |
| MetalSlugVoice.VoiceManager.constructor | metalslugvoice.cs:40-45 | The initial state: no action, timers at 0, no stored agent, empty member caches. |
| MetalSlugVoice.VoiceManager.GetCharacterControllerFromAction | metalslugvoice.cs:299-330 | It returns the controller read through the cached field. On a live action the cache becomes the hierarchy lookup. |
| MetalSlugVoice.VoiceManager.ProbeAction | metalslugvoice.cs:273-281 | The answer is IsMainCharacter of the action's controller. |
| MetalSlugVoice.VoiceManager.TryResolveMainReload | metalslugvoice.cs:251-297 | The action chosen is the first-flagged-or-first choice among the live actions. With no live action, the old one is kept. |
| MetalSlugVoice.VoiceManager.GetCurrentGunAgentFromReload | metalslugvoice.cs:386-468 | The agent is `GunAgentVia` over the new caches, and the caches become `FillCaches` of the old ones. |
| MetalSlugVoice.VoiceManager.ClassOfGun | metalslugvoice.cs:491-513 | It returns the class of the agent's item TypeID, through the locator and the TypeID cache. The TypeID cache gains exactly the type of the item the locator found. |
| MetalSlugVoice.VoiceManager.ObserveAgent | metalslugvoice.cs:476-525 | The stored agent and class, and the cues played, follow `GunStep`. The TypeID cache is consulted only for a new instance, and then gains exactly the type of its item. |
| MetalSlugVoice.VoiceManager.CheckCurrentGunAndPlayVoice | metalslugvoice.cs:474-525 | The whole state becomes `Checked` of the old state. The TypeID cache only grows. |
| MetalSlugVoice.VoiceManager.ResetIfDestroyed | metalslugvoice.cs:200-211 | The state becomes `ResetStep` of the old state. |
| MetalSlugVoice.VoiceManager.SearchIfDue | metalslugvoice.cs:234-239 | The state becomes `SearchStep` of the old state: the timer and the locked action are both stated. |
| MetalSlugVoice.VoiceManager.CheckIfDue | metalslugvoice.cs:242-247 | The state becomes `CheckStep` of the old state: the timer, the stored agent and class, the caches and the cues are all stated. The TypeID cache only grows. Before the check is due it is unchanged. |
| MetalSlugVoice.VoiceManager.Update | metalslugvoice.cs:197-245 | Update as written: the state becomes `FrameAsWritten` of the old state, so the reset never runs. The TypeID cache only grows. |
| MetalSlugVoice.VoiceManager.UpdateWithReset | metalslugvoice.cs:197-245 | Update with the intended reset: the state becomes `Frame` of the old state. The TypeID cache only grows. |
| MsVoice.IsLocalPlayer | msvoice.cs:298-341 | `ProbeFlag` over three property names and two field names, with fallback true, yet a null player is never local. |
| MsVoice.CheckLocalPlayer | msvoice.cs:298-341 | The property chain, then the field chain, then true. Each read that throws or is not a `bool` falls through. |
| MsVoice.UnflaggedCandidateIsLocal | msvoice.cs:339-340 | A first eligible behaviour that declares no flag member counts as local, so it wins the scan. |
| MsVoice.PickPlayer | msvoice.cs:247-280 | The scan picks the first-flagged-or-first eligible candidate, and reports whether it was flagged. |
| MsVoice.AgentTypesIn | msvoice.cs:374-385 | No more types than the assembly holds, and every one passes the agent-type filter. |
| MsVoice.AgentTypes | msvoice.cs:358-387 | The agent types of every assembly, in assembly order; an assembly whose `GetTypes()` throws adds none. Every result passes the agent-type filter; `AgentTypesMembers` and `ThrowingAssemblySkipped` state its contents. |
| MsVoice.AgentTypesInMembers | msvoice.cs:374-385 | The types kept are exactly the non-null MonoBehaviour types whose non-empty name starts with `ItemAgent_`. |
| MsVoice.AgentTypesMembers | msvoice.cs:358-387 | The types found are exactly those that pass the filter in some assembly whose `GetTypes()` did not throw. |
| MsVoice.ThrowingAssemblySkipped | msvoice.cs:364-372 | An assembly whose `GetTypes()` throws contributes nothing. |
| MsVoice.CollectAgentTypes | msvoice.cs:358-387 | The assembly loop finds exactly `AgentTypes`, in order. |
| MsVoice.AgentTypesOf | msvoice.cs:374-385 | The loop over one assembly's types finds exactly `AgentTypesIn`. |
| MsVoice.Observe | msvoice.cs:439-468 | The stored TypeID is always overwritten. A cue plays exactly when the new class is not NoClass and differs from the stored TypeID's class, and it is the new class. |
| MsVoice.ObserveRun | msvoice.cs:439-468 | Successive scans of one agent leave its last TypeID stored, with at most one cue per TypeID seen. |
| MsVoice.SameClassPlaysAtMostOnce | msvoice.cs:439-468 | TypeIDs all of one class play at most one cue, and none when the stored TypeID already had that class. |
| MsVoice.ReturnAfterUnclassifiedPlaysAgain | msvoice.cs:439-468 | The classes AR, AR, Shotgun, Shotgun, none, AR play AR, Shotgun, AR. |
| MsVoice.ReturnAfterUnclassifiedPlaysAgainInMsVoice | msvoice.cs:55-97 | The same run with the TypeIDs 238, 240, 248, 250, 1 and 238 of `msvoice.cs`. |
| MsVoice.ScanObj | msvoice.cs:422-468 | A live object enters `seen`. A dead or already seen object, or one without a TypeID, changes neither the table nor the cues. |
| MsVoice.ScanObjs | msvoice.cs:420-469 | After the loop, `seen` holds exactly the live objects enumerated. |
| MsVoice.ScanObjsFrame | msvoice.cs:420-469 | Only the entries of newly seen objects change. Cues are only appended, at most one per newly seen object. |
| MsVoice.ScanObjsAppend | msvoice.cs:412-470 | Scanning one type's objects after another's, with one shared `seen` set, is scanning their concatenation. |
| MsVoice.Prune | msvoice.cs:473-493 | An entry survives exactly when its key is alive and was seen, and it keeps its TypeID. |
| MsVoice.Scan | msvoice.cs:406-494 | After a scan, `seen` holds the live enumerated objects, every table key is alive and seen, and the old cues are a prefix of the new ones. |
| MsVoice.UnextractedKeepsEntry | msvoice.cs:433-437 | An agent whose item or TypeID cannot be extracted keeps its stored TypeID through the loops. |
| MsVoice.UnextractedSurvivesScan | msvoice.cs:433-493 | Such an agent, alive and enumerated, keeps its entry through the pruning. |
| MsVoice.FirstOccurrenceStored | msvoice.cs:425-468 | The first time an agent with a TypeID is met, that TypeID is stored. Later duplicates leave it alone. |
| MsVoice.StoredBeforeRescan | msvoice.cs:425-493 | In a second scan, an agent met for the first time finds the TypeID the first scan stored. |
| MsVoice.SilentStep | msvoice.cs:442-445 | An agent that finds its own TypeID stored plays nothing. |
| MsVoice.RescanPrefixSilent | msvoice.cs:420-468 | Every prefix of a second scan of an unchanged world plays nothing. |
| MsVoice.RescanSilent | msvoice.cs:406-494 | Two scans in a row of an unchanged world of Unity objects: the second plays nothing. |
| MsVoice.VoiceManager.constructor | msvoice.cs:40-51 | The initial state: no player, timers at 0, no agent types, an empty table, nothing played. |
| MsVoice.VoiceManager.TryFindLocalPlayerPeriodically | msvoice.cs:239-296 | Nothing changes before the search is due. A due search moves the timer 1.0 past now. A flagged pick becomes the player, an unflagged one only while no player is known, and with no pick and no player the searched-once flag is raised. |
| MsVoice.VoiceManager.SearchLocalPlayer | msvoice.cs:243-296 | A flagged pick always becomes the player. An unflagged pick does so only while no player is known. With no eligible candidate and no player, the searched-once flag is raised. |
| MsVoice.VoiceManager.EnsureItemAgentTypes | msvoice.cs:347-401 | It runs only when no non-empty array is known and no earlier run was tried. It then sets the tried flag and stores exactly `AgentTypes`. |
| MsVoice.VoiceManager.ScanOne | msvoice.cs:422-468 | One object of the inner loop: `seen`, the table and the cues become `ScanObj` of their old values. The TypeID cache is consulted only for a live, unseen MonoBehaviour, and then gains exactly the type of its item. |
| MsVoice.VoiceManager.ScanObjects | msvoice.cs:420-469 | The inner loop computes `ScanObjs`. The TypeID cache only grows. |
| MsVoice.VoiceManager.ScanTypes | msvoice.cs:412-470 | The outer loop computes `ScanObjs` over all agent types' objects, in order. The TypeID cache only grows. |
| MsVoice.VoiceManager.RemoveStale | msvoice.cs:473-493 | The table becomes `Prune` of itself. |
| MsVoice.VoiceManager.ScanAndPrune | msvoice.cs:410-493 | The loops, then the clean-up, compute `Scan`. The TypeID cache only grows. |
| MsVoice.VoiceManager.ScanItemAgents | msvoice.cs:406-494 | With no agent types nothing changes. Otherwise the table and the cues become `Scan`. The TypeID cache only grows. Without agent types it is unchanged. |
| MsVoice.VoiceManager.ScanIfDue | msvoice.cs:222-231 | Nothing changes before the scan is due. A due scan moves the timer 0.2 past now, resolves the agent types at most once and sets the tried flag, and scans when there are any. The TypeID cache only grows. Before the scan is due it is unchanged. |
| MsVoice.VoiceManager.Update | msvoice.cs:194-232 | Without a player, only the player search runs, with the outcome stated for `TryFindLocalPlayerPeriodically`; no scan runs and no cue plays. With a player, the player, its type, the searched-once flag and the search timer are kept, and the agent scan has the outcome stated for `ScanIfDue`. The TypeID cache only grows. Without a player it is unchanged. |

## Left out

- Audio: `PlayVoice` and the clip loading are not modelled. A cue is the voice class appended to `played`; the switch from class to clip is not modelled.
- The F10 test key and the quick-slot keys 3 to 8, `Awake`/`Start`/`OnDestroy`, the singleton, and every `Debug.Log` call.
- Time is an exact `real` parameter. Single-precision float rounding of `Time.unscaledTime + 0.2f` is not modelled.
- Reflection results are inputs: `World.readRef`, `readInt` and `readBool`, the declared members of each `TypeDesc`, and the slots of each `Node`. A `None` read stands for a getter or cast that throws. The `catch` blocks around whole loops (`GetFields`/`GetProperties` throwing) are not modelled, and neither are exceptions raised while enumerating a collection.
- `FindObjectsOfType` is a parameter: a candidate list, a reload list, or a `find` function from agent type to objects.
- EnsureItemAgentTypes: the outer `catch` around the whole assembly scan is not modelled. Only a throwing `GetTypes()` is, as an assembly with no type array.
- MsVoice.VoiceManager.ScanItemAgents: the `agentType == null` test is not modelled. The discovered array never holds null, since every entry passed the filter (`TypesValid`).
- Dictionary keys and `HashSet<object>` entries are compared by object identity (`ObjId`). A destroyed key (`key == null`) is `!alive`.
- Members.TypeIdCache: `_itemTypeIdMemberCache` is keyed by `Type` identity, but the model's cache is keyed by the type's descriptor (`TypeDesc`), which is compared by value. Two distinct runtime types with identical descriptors therefore share one entry and one lookup. The TypeIDs read are the same either way, because the lookup depends only on the descriptor. Only the number of lookups that `LookupsCountNewTypes` counts can be lower than the code's.
- The loops of both managers are split into helper methods, each loop or loop body in its own method, so that each proof stays small: `PickPlayer`, `CollectAgentTypes`, `AgentTypesOf`, `ScanTypes`, `ScanObjects`, `ScanOne`, `RemoveStale`, `ScanAndPrune`, `ScanIfDue`, `ObserveAgent`, `ProbeAction`, `ClassOfGun`, `SearchFields`, `SearchProps`, `SearchIfDue`, `CheckIfDue`, `ResetIfDestroyed`, `GetAgentTypeId`. The code runs each of these inline. `CheckLocalPlayer` is not such a helper: it runs the source's own `IsLocalPlayer` method (msvoice.cs:298-341).
- MsVoice.PickPlayer: `firstCharacter` is kept as an index rather than a reference. Its `== null` test is the same, since an eligible behaviour is alive.
- Collections in the main locator are finite values (`Value.elems`) and cannot hold themselves. The element loop (msvoice.cs:627-635, metalslugvoice.cs:654-662) has no depth or visited test, so on a collection that holds itself the code recurses until the stack overflows. The main locator does not capture this; the separate collection-graph model (`ElemValueAsWritten`) does, and it is the second row of the findings.
- `metalslugvoice.cs:463-466` repeats the always-false destroyed test on the gun agent. It does no harm there: the caller's own `== null` test already treats a destroyed agent as null. The model returns the agent and lets `UnityNull` decide.

## Findings

| source | as written | input that shows it | evidently intended | confidence | as-written member | corrected member |
|---|---|---|---|---|---|---|
| metalslugvoice.cs:139-143, 200 | `u != null && u == null` uses Unity's overloaded equality twice, so the destroyed test is false for every object; the guard `_mainReload != null` at line 200 is Unity's test too, so it is false for a destroyed action as well. The reset at lines 200-211 never runs | a `CA_Reload` that Unity has destroyed while it is locked: the frame leaves the stale action, gun state and member caches in place | both comparisons on the reference itself, `(object)u != null` at line 141 and `(object)_mainReload != null` at line 200, so that a destroyed locked action is reset | not executed | MetalSlugVoice.DestroyedAsWritten, MetalSlugVoice.DestroyedActionUndetected, MetalSlugVoice.ResetStepAsWritten, MetalSlugVoice.ResetNeverRunsAsWritten, MetalSlugVoice.ResetGuardDeadWithCorrectedTest, MetalSlugVoice.DestroyedActionKeptAsWritten, MetalSlugVoice.VoiceManager.Update | MetalSlugVoice.IsUnityObjectDestroyed, MetalSlugVoice.ResetStep, MetalSlugVoice.DestroyedActionReplacedAtOnce, MetalSlugVoice.VoiceManager.ResetIfDestroyed, MetalSlugVoice.VoiceManager.UpdateWithReset |
| msvoice.cs:627-635, metalslugvoice.cs:654-662 | the element loop calls FindItemEntryFromValue on each element with no depth or visited test | a collection that holds itself (a `List<object>` added to itself), reachable from an agent's fields: the recursion never ends and the stack overflows | the maximum depth, which already bounds the object path, also bounds the collection path | not executed | Locator.ElemValueAsWritten, Locator.SelfHoldingCollectionOverflows | Locator.ElemValueBounded, Locator.BoundedNeverOverflows, Locator.SelfHoldingCollectionEndsEmpty |
