/** e7/stat.go: a hero's stat, its wire tokens and its codec. */
module Stats {
  import W = Wrappers
  import opened Json
  import opened Enum

  /** Go's `type Stat int` (a 64-bit int). */
  newtype Stat = x: int | -0x8000_0000_0000_0000 <= x < 0x8000_0000_0000_0000

  // `Attack Stat = iota`: the stats are numbered 0 to 11.
  const Attack: Stat := 0
  const AttackPercent: Stat := 1
  const Defense: Stat := 2
  const DefensePercent: Stat := 3
  const Health: Stat := 4
  const HealthPercent: Stat := 5
  const Speed: Stat := 6
  const CriticalHitChance: Stat := 7
  const CriticalHitDamage: Stat := 8
  const Effectiveness: Stat := 9
  const EffectResistance: Stat := 10
  const DualAttackChance: Stat := 11

  /** statStrings: variant to wire token. */
  const StatStrings: map<Stat, string> := map[
      Attack := "att",
      AttackPercent := "att_rate",
      Defense := "def",
      DefensePercent := "def_rate",
      Health := "max_hp",
      HealthPercent := "max_hp_rate",
      Speed := "speed",
      CriticalHitChance := "cri",
      CriticalHitDamage := "cri_dmg",
      Effectiveness := "acc",
      EffectResistance := "res",
      DualAttackChance := "coop"]

  /** stats: wire token to variant. */
  const StatsByString: map<string, Stat> := map[
      "att" := Attack,
      "att_rate" := AttackPercent,
      "def" := Defense,
      "def_rate" := DefensePercent,
      "max_hp" := Health,
      "max_hp_rate" := HealthPercent,
      "speed" := Speed,
      "cri" := CriticalHitChance,
      "cri_dmg" := CriticalHitDamage,
      "acc" := Effectiveness,
      "res" := EffectResistance,
      "coop" := DualAttackChance]

  const ErrUnknownStat: CodecError := Unknown(StatKind)

  const StatCodec: Codec<Stat> := Codec(StatStrings, StatsByString, ErrUnknownStat)

  // Table facts, one lookup at a time, and the characters of each token.
  // Each lemma states a single lookup in a literal map, and the tokens are
  // checked a few at a time: one proof per fact keeps the solver's work
  // small and the same on every run.
  lemma AttackToken()
    ensures StatStrings[Attack] == "att"
  {
  }

  lemma AttackFromToken()
    ensures StatsByString["att"] == Attack
  {
  }

  lemma AttackPercentToken()
    ensures StatStrings[AttackPercent] == "att_rate"
  {
  }

  lemma AttackPercentFromToken()
    ensures StatsByString["att_rate"] == AttackPercent
  {
  }

  lemma DefenseToken()
    ensures StatStrings[Defense] == "def"
  {
  }

  lemma DefenseFromToken()
    ensures StatsByString["def"] == Defense
  {
  }

  lemma DefensePercentToken()
    ensures StatStrings[DefensePercent] == "def_rate"
  {
  }

  lemma DefensePercentFromToken()
    ensures StatsByString["def_rate"] == DefensePercent
  {
  }

  lemma HealthToken()
    ensures StatStrings[Health] == "max_hp"
  {
  }

  lemma HealthFromToken()
    ensures StatsByString["max_hp"] == Health
  {
  }

  lemma HealthPercentToken()
    ensures StatStrings[HealthPercent] == "max_hp_rate"
  {
  }

  lemma HealthPercentFromToken()
    ensures StatsByString["max_hp_rate"] == HealthPercent
  {
  }

  lemma SpeedToken()
    ensures StatStrings[Speed] == "speed"
  {
  }

  lemma SpeedFromToken()
    ensures StatsByString["speed"] == Speed
  {
  }

  lemma CriticalHitChanceToken()
    ensures StatStrings[CriticalHitChance] == "cri"
  {
  }

  lemma CriticalHitChanceFromToken()
    ensures StatsByString["cri"] == CriticalHitChance
  {
  }

  lemma CriticalHitDamageToken()
    ensures StatStrings[CriticalHitDamage] == "cri_dmg"
  {
  }

  lemma CriticalHitDamageFromToken()
    ensures StatsByString["cri_dmg"] == CriticalHitDamage
  {
  }

  lemma EffectivenessToken()
    ensures StatStrings[Effectiveness] == "acc"
  {
  }

  lemma EffectivenessFromToken()
    ensures StatsByString["acc"] == Effectiveness
  {
  }

  lemma EffectResistanceToken()
    ensures StatStrings[EffectResistance] == "res"
  {
  }

  lemma EffectResistanceFromToken()
    ensures StatsByString["res"] == EffectResistance
  {
  }

  lemma DualAttackChanceToken()
    ensures StatStrings[DualAttackChance] == "coop"
  {
  }

  lemma DualAttackChanceFromToken()
    ensures StatsByString["coop"] == DualAttackChance
  {
  }

  lemma StatTokensSafe1()
    ensures JsonSafe("att")
    ensures JsonSafe("att_rate")
    ensures JsonSafe("def")
  {
  }

  lemma StatTokensSafe2()
    ensures JsonSafe("def_rate")
    ensures JsonSafe("max_hp")
    ensures JsonSafe("max_hp_rate")
  {
  }

  lemma StatTokensSafe3()
    ensures JsonSafe("speed")
    ensures JsonSafe("cri")
    ensures JsonSafe("cri_dmg")
  {
  }

  lemma StatTokensSafe4()
    ensures JsonSafe("acc")
    ensures JsonSafe("res")
    ensures JsonSafe("coop")
  {
  }

  lemma StatTokenDomain()
    ensures forall s | s in StatsByString ::
      s == "att" || s == "att_rate" || s == "def" || s == "def_rate" || s == "max_hp"
      || s == "max_hp_rate"|| s == "speed" || s == "cri" || s == "cri_dmg" || s == "acc"
      || s == "res"|| s == "coop"
  {
  }

  lemma StatValueDomain()
    ensures forall v | v in StatStrings :: v == Attack || v == AttackPercent || v == Defense || v == DefensePercent || v == Health || v == HealthPercent || v == Speed || v == CriticalHitChance || v == CriticalHitDamage || v == Effectiveness || v == EffectResistance || v == DualAttackChance
  {
  }

  lemma StatForward()
    ensures forall v | v in StatStrings :: StatStrings[v] in StatsByString && StatsByString[StatStrings[v]] == v
  {
    StatValueDomain();
    AttackToken();
    AttackFromToken();
    AttackPercentToken();
    AttackPercentFromToken();
    DefenseToken();
    DefenseFromToken();
    DefensePercentToken();
    DefensePercentFromToken();
    HealthToken();
    HealthFromToken();
    HealthPercentToken();
    HealthPercentFromToken();
    SpeedToken();
    SpeedFromToken();
    CriticalHitChanceToken();
    CriticalHitChanceFromToken();
    CriticalHitDamageToken();
    CriticalHitDamageFromToken();
    EffectivenessToken();
    EffectivenessFromToken();
    EffectResistanceToken();
    EffectResistanceFromToken();
    DualAttackChanceToken();
    DualAttackChanceFromToken();
  }

  lemma StatBackward()
    ensures forall s | s in StatsByString :: StatsByString[s] in StatStrings && StatStrings[StatsByString[s]] == s
  {
    StatTokenDomain();
    AttackToken();
    AttackFromToken();
    AttackPercentToken();
    AttackPercentFromToken();
    DefenseToken();
    DefenseFromToken();
    DefensePercentToken();
    DefensePercentFromToken();
    HealthToken();
    HealthFromToken();
    HealthPercentToken();
    HealthPercentFromToken();
    SpeedToken();
    SpeedFromToken();
    CriticalHitChanceToken();
    CriticalHitChanceFromToken();
    CriticalHitDamageToken();
    CriticalHitDamageFromToken();
    EffectivenessToken();
    EffectivenessFromToken();
    EffectResistanceToken();
    EffectResistanceFromToken();
    DualAttackChanceToken();
    DualAttackChanceFromToken();
  }

  /** The two tables are mutual inverses over 12 distinct tokens, each of
      which can be quoted without escaping. */
  lemma StatTables()
    ensures WellFormed(StatCodec)
    ensures StatStrings.Keys == {Attack, AttackPercent, Defense, DefensePercent, Health, HealthPercent, Speed, CriticalHitChance, CriticalHitDamage, Effectiveness, EffectResistance, DualAttackChance}
  {
    StatForward();
    StatBackward();
    StatTokensSafe1();
    StatTokensSafe2();
    StatTokensSafe3();
    StatTokensSafe4();
  }

  /** A value is a defined stat exactly when it lies in 0..11. */
  lemma DefinedStats(s: Stat)
    ensures s in StatStrings <==> 0 <= s <= 11
  {
  }

  /** For every defined stat, UnmarshalJSON of MarshalJSON's bytes succeeds
      with that stat. */
  lemma StatRoundTrip(s: Stat)
    requires s in StatStrings
    ensures Parse(StatCodec, Quoted(String(StatCodec, s))) == W.Success(s)
  {
    StatTables();
    ParseMarshal(StatCodec, s);
  }

  /** The API's abbreviations: effectiveness is "acc", effect resistance "res" and
      dual attack chance "coop". */
  lemma StatWireNames()
    ensures String(StatCodec, Effectiveness) == "acc"
    ensures Parse(StatCodec, Quoted("acc")) == W.Success(Effectiveness)
    ensures String(StatCodec, EffectResistance) == "res"
    ensures Parse(StatCodec, Quoted("res")) == W.Success(EffectResistance)
    ensures String(StatCodec, DualAttackChance) == "coop"
    ensures Parse(StatCodec, Quoted("coop")) == W.Success(DualAttackChance)
  {
    EffectivenessToken();
    EffectResistanceToken();
    DualAttackChanceToken();
    StatRoundTrip(Effectiveness);
    StatRoundTrip(EffectResistance);
    StatRoundTrip(DualAttackChance);
  }

  /** A quoted string that is not a stat token gives ErrUnknownStat. */
  lemma UnknownStat(s: string)
    requires JsonSafe(s)
    requires s !in StatsByString
    ensures Parse(StatCodec, Quoted(s)) == W.Failure(ErrUnknownStat)
  {
    ParseRejectsUnknown(StatCodec, s);
  }

  /** The quoted string "test" is rejected with ErrUnknownStat. */
  lemma TestIsUnknownStat()
    ensures Parse(StatCodec, Quoted("test")) == W.Failure(ErrUnknownStat)
  {
    UnknownStat("test");
  }
}
