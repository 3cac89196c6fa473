/** The static table that folds engine versions into one engine family, and the
    per-record rewrite that applies it. The table is written in four parts, in the
    order of the source, so that each part stays small for the verifier. */
module EngineVersions {
  import opened Records

  /** The table entries at fetch_data.py:107-119. */
  const VERSIONS_CRYENGINE_TO_QUAKE: map<string, string> := map[
    "CryEngine V" := "CryEngine",
    "CryEngine (4th generation)" := "CryEngine",
    "CryEngine 2" := "CryEngine",
    "CryEngine 3" := "CryEngine",
    "Id Tech 1" := "Id Tech",
    "Id Tech 2" := "Id Tech",
    "Id Tech 3" := "Id Tech",
    "Id Tech 4" := "Id Tech",
    "Id Tech 5" := "Id Tech",
    "Id Tech 6" := "Id Tech",
    "Id Tech 7" := "Id Tech",
    "Quake engine" := "Id Tech",
    "QuakeWorld" := "Id Tech"
  ]

  /** The table entries at fetch_data.py:120-129. */
  const VERSIONS_FROSTBITE_TO_UNREAL: map<string, string> := map[
    "Frostbite 1.5" := "Frostbite",
    "Frostbite 2" := "Frostbite",
    "Frostbite 3" := "Frostbite",
    "SAGE 2.0" := "SAGE",
    "Unreal Engine 1" := "Unreal Engine",
    "Unreal Engine 2" := "Unreal Engine",
    "Unreal Engine 2.5" := "Unreal Engine",
    "Unreal Engine 3" := "Unreal Engine",
    "Unreal Engine 4" := "Unreal Engine",
    "Unreal Engine 5" := "Unreal Engine"
  ]

  /** The table entries at fetch_data.py:130-140. */
  const VERSIONS_GAMEBRYO_TO_AVALANCHE: map<string, string> := map[
    "Gamebryo (TES Engine)" := "Gamebryo",
    "GEM 2" := "GEM",
    "GEM 3" := "GEM",
    "AGL 2" := "AGL",
    "AGL 3" := "AGL",
    "AGL 4" := "AGL",
    "The Sims 2 Engine" := "The Sims Engine",
    "The Sims 3 Engine" := "The Sims Engine",
    "Glacier 2" := "Glacier",
    "Avalanche Engine 3.0" := "Avalanche Engine",
    "Avalanche Engine 2.0" := "Avalanche Engine"
  ]

  /** The table entries at fetch_data.py:141-151. */
  const VERSIONS_PTERO_TO_KIRIKIRI: map<string, string> := map[
    "Ptero Engine II" := "Ptero Engine",
    "Ptero Engine III" := "Ptero Engine",
    "Refractor 2" := "Refractor",
    "Construct Classic" := "Construct",
    "Construct 2" := "Construct",
    "Construct 3" := "Construct",
    "Photex2" := "Photex",
    "Dunia 2" := "Dunia",
    "Source 2" := "Source",
    "Vicious Engine 2" := "Vicious Engine",
    "KiriKiri Z" := "KiriKiri"
  ]

  /** The whole table: engine variant -> engine family. */
  const COMBINED_ENGINE_VERSIONS: map<string, string> :=
    VERSIONS_CRYENGINE_TO_QUAKE + VERSIONS_FROSTBITE_TO_UNREAL +
    VERSIONS_GAMEBRYO_TO_AVALANCHE + VERSIONS_PTERO_TO_KIRIKIRI

  /** The engine families the table maps onto, in two parts in the order they first
      appear as values of the table. */
  const FAMILIES_CRYENGINE_TO_SIMS: set<string> := {
    "CryEngine", "Id Tech", "Frostbite", "SAGE", "Unreal Engine", "Gamebryo", "GEM", "AGL",
    "The Sims Engine"
  }

  const FAMILIES_GLACIER_TO_KIRIKIRI: set<string> := {
    "Glacier", "Avalanche Engine", "Ptero Engine", "Refractor", "Construct",
    "Photex", "Dunia", "Source", "Vicious Engine", "KiriKiri"
  }

  const ENGINE_FAMILIES: set<string> := FAMILIES_CRYENGINE_TO_SIMS + FAMILIES_GLACIER_TO_KIRIKIRI

  lemma FamiliesAvoidCryengineToQuake()
    ensures forall e :: e in ENGINE_FAMILIES ==> e !in VERSIONS_CRYENGINE_TO_QUAKE
    ensures "Godot" !in VERSIONS_CRYENGINE_TO_QUAKE
  {
    FirstFamiliesAvoidCryengineToQuake();
    OtherFamiliesAvoidCryengineToQuake();
  }

  lemma FirstFamiliesAvoidCryengineToQuake()
    ensures forall e :: e in FAMILIES_CRYENGINE_TO_SIMS ==> e !in VERSIONS_CRYENGINE_TO_QUAKE
    ensures "Godot" !in VERSIONS_CRYENGINE_TO_QUAKE
  {
  }

  lemma OtherFamiliesAvoidCryengineToQuake()
    ensures forall e :: e in FAMILIES_GLACIER_TO_KIRIKIRI ==> e !in VERSIONS_CRYENGINE_TO_QUAKE
  {
  }

  lemma CryengineToQuakeMapsToFamilies()
    ensures forall k :: k in VERSIONS_CRYENGINE_TO_QUAKE ==> VERSIONS_CRYENGINE_TO_QUAKE[k] in ENGINE_FAMILIES
  {
  }

  lemma FamiliesAvoidFrostbiteToUnreal()
    ensures forall e :: e in ENGINE_FAMILIES ==> e !in VERSIONS_FROSTBITE_TO_UNREAL
    ensures "Godot" !in VERSIONS_FROSTBITE_TO_UNREAL
  {
    FirstFamiliesAvoidFrostbiteToUnreal();
    OtherFamiliesAvoidFrostbiteToUnreal();
  }

  lemma FirstFamiliesAvoidFrostbiteToUnreal()
    ensures forall e :: e in FAMILIES_CRYENGINE_TO_SIMS ==> e !in VERSIONS_FROSTBITE_TO_UNREAL
    ensures "Godot" !in VERSIONS_FROSTBITE_TO_UNREAL
  {
  }

  lemma OtherFamiliesAvoidFrostbiteToUnreal()
    ensures forall e :: e in FAMILIES_GLACIER_TO_KIRIKIRI ==> e !in VERSIONS_FROSTBITE_TO_UNREAL
  {
  }

  lemma FrostbiteToUnrealMapsToFamilies()
    ensures forall k :: k in VERSIONS_FROSTBITE_TO_UNREAL ==> VERSIONS_FROSTBITE_TO_UNREAL[k] in ENGINE_FAMILIES
  {
  }

  lemma FamiliesAvoidGamebryoToAvalanche()
    ensures forall e :: e in ENGINE_FAMILIES ==> e !in VERSIONS_GAMEBRYO_TO_AVALANCHE
    ensures "Godot" !in VERSIONS_GAMEBRYO_TO_AVALANCHE
    ensures "Unreal Engine 3" !in VERSIONS_GAMEBRYO_TO_AVALANCHE
  {
    FirstFamiliesAvoidGamebryoToAvalanche();
    OtherFamiliesAvoidGamebryoToAvalanche();
  }

  lemma FirstFamiliesAvoidGamebryoToAvalanche()
    ensures forall e :: e in FAMILIES_CRYENGINE_TO_SIMS ==> e !in VERSIONS_GAMEBRYO_TO_AVALANCHE
    ensures "Godot" !in VERSIONS_GAMEBRYO_TO_AVALANCHE
    ensures "Unreal Engine 3" !in VERSIONS_GAMEBRYO_TO_AVALANCHE
  {
  }

  lemma OtherFamiliesAvoidGamebryoToAvalanche()
    ensures forall e :: e in FAMILIES_GLACIER_TO_KIRIKIRI ==> e !in VERSIONS_GAMEBRYO_TO_AVALANCHE
  {
  }

  lemma GamebryoToAvalancheMapsToFamilies()
    ensures forall k :: k in VERSIONS_GAMEBRYO_TO_AVALANCHE ==> VERSIONS_GAMEBRYO_TO_AVALANCHE[k] in ENGINE_FAMILIES
  {
  }

  lemma FamiliesAvoidPteroToKirikiri()
    ensures forall e :: e in ENGINE_FAMILIES ==> e !in VERSIONS_PTERO_TO_KIRIKIRI
    ensures "Godot" !in VERSIONS_PTERO_TO_KIRIKIRI
    ensures "Unreal Engine 3" !in VERSIONS_PTERO_TO_KIRIKIRI
  {
    FirstFamiliesAvoidPteroToKirikiri();
    OtherFamiliesAvoidPteroToKirikiri();
  }

  lemma FirstFamiliesAvoidPteroToKirikiri()
    ensures forall e :: e in FAMILIES_CRYENGINE_TO_SIMS ==> e !in VERSIONS_PTERO_TO_KIRIKIRI
    ensures "Godot" !in VERSIONS_PTERO_TO_KIRIKIRI
    ensures "Unreal Engine 3" !in VERSIONS_PTERO_TO_KIRIKIRI
  {
  }

  lemma OtherFamiliesAvoidPteroToKirikiri()
    ensures forall e :: e in FAMILIES_GLACIER_TO_KIRIKIRI ==> e !in VERSIONS_PTERO_TO_KIRIKIRI
  {
  }

  lemma PteroToKirikiriMapsToFamilies()
    ensures forall k :: k in VERSIONS_PTERO_TO_KIRIKIRI ==> VERSIONS_PTERO_TO_KIRIKIRI[k] in ENGINE_FAMILIES
  {
  }

  /** No engine family is a key of the table. */
  lemma FamiliesAreNotKeys()
    ensures forall e :: e in ENGINE_FAMILIES ==> e !in COMBINED_ENGINE_VERSIONS
  {
    forall e | e in ENGINE_FAMILIES
      ensures e !in COMBINED_ENGINE_VERSIONS
    {
      FamiliesAvoidCryengineToQuake();
      FamiliesAvoidFrostbiteToUnreal();
      FamiliesAvoidGamebryoToAvalanche();
      FamiliesAvoidPteroToKirikiri();
    }
  }

  /** Every value of the table is an engine family. */
  lemma TableValuesAreFamilies()
    ensures forall k :: k in COMBINED_ENGINE_VERSIONS ==> COMBINED_ENGINE_VERSIONS[k] in ENGINE_FAMILIES
  {
    forall k | k in COMBINED_ENGINE_VERSIONS
      ensures COMBINED_ENGINE_VERSIONS[k] in ENGINE_FAMILIES
    {
      if k in VERSIONS_PTERO_TO_KIRIKIRI {
        PteroToKirikiriMapsToFamilies();
      } else if k in VERSIONS_GAMEBRYO_TO_AVALANCHE {
        GamebryoToAvalancheMapsToFamilies();
      } else if k in VERSIONS_FROSTBITE_TO_UNREAL {
        FrostbiteToUnrealMapsToFamilies();
      } else {
        CryengineToQuakeMapsToFamilies();
      }
    }
  }

  /** The engine name written out for `engine`: its family when the table
      lists it, the name itself otherwise. */
  function Generalize(engine: string): (family: string)
    ensures engine in COMBINED_ENGINE_VERSIONS ==> family == COMBINED_ENGINE_VERSIONS[engine]
    ensures engine !in COMBINED_ENGINE_VERSIONS ==> family == engine
  {
    if engine in COMBINED_ENGINE_VERSIONS then COMBINED_ENGINE_VERSIONS[engine] else engine
  }

  /** A generalized name is never a key of the table. */
  lemma GeneralizedIsNotAKey(engine: string)
    ensures Generalize(engine) !in COMBINED_ENGINE_VERSIONS
    ensures engine in COMBINED_ENGINE_VERSIONS ==> Generalize(engine) in ENGINE_FAMILIES
  {
    TableValuesAreFamilies();
    FamiliesAreNotKeys();
  }

  /** Applying the table twice is applying it once. */
  lemma GeneralizeIdempotent(engine: string)
    ensures Generalize(Generalize(engine)) == Generalize(engine)
  {
    GeneralizedIsNotAKey(engine);
  }

  lemma UnrealEngine3IsUnrealEngine()
    ensures Generalize("Unreal Engine 3") == "Unreal Engine"
  {
    FamiliesAvoidGamebryoToAvalanche();
    FamiliesAvoidPteroToKirikiri();
  }

  /** A name the table does not list is kept. */
  lemma GodotIsKept()
    ensures Generalize("Godot") == "Godot"
  {
    FamiliesAvoidCryengineToQuake();
    FamiliesAvoidFrostbiteToUnreal();
    FamiliesAvoidGamebryoToAvalanche();
    FamiliesAvoidPteroToKirikiri();
  }

  /** The record with its engine rewritten; title and release year are kept. */
  function GeneralizeGame(g: Game): (h: Game)
    ensures h.title == g.title && h.release == g.release
    ensures h.engine == Generalize(g.engine)
  {
    g.(engine := Generalize(g.engine))
  }
}
