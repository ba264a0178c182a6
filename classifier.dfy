/** Weapon voice classification: a TypeID is looked up in fixed sets in
    precedence order AR, Shotgun, Sniper, Grenade. */
module Classifier {

  datatype VoiceClass = NoClass | AR | Shotgun | Sniper | Grenade

  /** The configured TypeID sets. */
  datatype Config = Config(ar: set<int>, shotgun: set<int>, sniper: set<int>, grenade: set<int>)

  /** The sets of metalslugvoice.cs.  That file has no grenade class, which is
      an empty grenade set here. */
  const MetalSlugConfig := Config(
    {238, 240, 242, 244, 256, 654, 659, 681, 682, 862, 1238, 1362},
    {248, 250, 657, 658, 876, 1089},
    {246, 407, 437, 780, 781, 782},
    {})

  /** The sets of msvoice.cs: no 1362 among the AR ids, and an empty grenade set. */
  const MsVoiceConfig := Config(
    {238, 240, 242, 244, 256, 654, 659, 681, 682, 862, 1238},
    {248, 250, 657, 658, 876, 1089},
    {246, 407, 437, 780, 781, 782},
    {})

  /** No id is configured in two sets. */
  predicate Disjoint(c: Config) {
    && c.ar * c.shotgun == {} && c.ar * c.sniper == {} && c.ar * c.grenade == {}
    && c.shotgun * c.sniper == {} && c.shotgun * c.grenade == {}
    && c.sniper * c.grenade == {}
  }

  /** GetWeaponVoiceClass. */
  function Classify(c: Config, typeId: int): (r: VoiceClass)
    ensures r != NoClass <==> typeId in c.ar + c.shotgun + c.sniper + c.grenade
    ensures r == AR <==> typeId in c.ar
    ensures r == Shotgun ==> typeId in c.shotgun && typeId !in c.ar
    ensures r == Sniper ==> typeId in c.sniper && typeId !in c.ar + c.shotgun
    ensures r == Grenade ==> typeId in c.grenade && typeId !in c.ar + c.shotgun + c.sniper
  {
    if typeId in c.ar then AR
    else if typeId in c.shotgun then Shotgun
    else if typeId in c.sniper then Sniper
    else if typeId in c.grenade then Grenade
    else NoClass
  }

  /** With disjoint sets, every configured id gets exactly the class of the
      one set it is in, and precedence never matters. */
  lemma ClassifyExact(c: Config, typeId: int)
    requires Disjoint(c)
    ensures typeId in c.ar ==> Classify(c, typeId) == AR
    ensures typeId in c.shotgun ==> Classify(c, typeId) == Shotgun
    ensures typeId in c.sniper ==> Classify(c, typeId) == Sniper
    ensures typeId in c.grenade ==> Classify(c, typeId) == Grenade
  {
    if typeId in c.shotgun { assert typeId !in c.ar * c.shotgun; }
    if typeId in c.sniper {
      assert typeId !in c.ar * c.sniper;
      assert typeId !in c.shotgun * c.sniper;
    }
    if typeId in c.grenade {
      assert typeId !in c.ar * c.grenade;
      assert typeId !in c.shotgun * c.grenade;
      assert typeId !in c.sniper * c.grenade;
    }
  }

  /** Both configured tables are pairwise disjoint. */
  lemma ConfigsDisjoint()
    ensures Disjoint(MetalSlugConfig) && Disjoint(MsVoiceConfig)
  {
  }

  /** The grenade set is empty in both files, so Grenade is never returned. */
  lemma GrenadeNeverReturned(typeId: int)
    ensures Classify(MetalSlugConfig, typeId) != Grenade
    ensures Classify(MsVoiceConfig, typeId) != Grenade
  {
  }

  /** The two files differ on one id: 1362 is AR in metalslugvoice.cs and
      unclassified in msvoice.cs. */
  lemma ConfigsDifferOn1362()
    ensures Classify(MetalSlugConfig, 1362) == AR
    ensures Classify(MsVoiceConfig, 1362) == NoClass
  {
  }
}
