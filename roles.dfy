/** e7/roles.go: a hero's role, its wire tokens and its codec. */
module Roles {
  import W = Wrappers
  import opened Json
  import opened Enum

  /** Go's `type Role int` (a 64-bit int). */
  newtype Role = x: int | -0x8000_0000_0000_0000 <= x < 0x8000_0000_0000_0000

  // `Warrior Role = iota`: the roles are numbered 0 to 5.
  const Warrior: Role := 0
  const Knight: Role := 1
  const Thief: Role := 2
  const Ranger: Role := 3
  const Mage: Role := 4
  const SoulWeaver: Role := 5

  /** rolesStrings: variant to wire token. */
  const RolesStrings: map<Role, string> := map[
      Warrior := "warrior",
      Knight := "knight",
      Thief := "assassin",
      Ranger := "ranger",
      Mage := "mage",
      SoulWeaver := "manauser"]

  /** roles: wire token to variant. */
  const RolesByString: map<string, Role> := map[
      "warrior" := Warrior,
      "knight" := Knight,
      "assassin" := Thief,
      "ranger" := Ranger,
      "mage" := Mage,
      "manauser" := SoulWeaver]

  const ErrUnknownRole: CodecError := Unknown(RoleKind)

  const RoleCodec: Codec<Role> := Codec(RolesStrings, RolesByString, ErrUnknownRole)

  // Table facts, one lookup at a time, and the characters of each token.
  // Each lemma states a single lookup in a literal map, and the tokens are
  // checked a few at a time: one proof per fact keeps the solver's work
  // small and the same on every run.
  lemma WarriorToken()
    ensures RolesStrings[Warrior] == "warrior"
  {
  }

  lemma WarriorFromToken()
    ensures RolesByString["warrior"] == Warrior
  {
  }

  lemma KnightToken()
    ensures RolesStrings[Knight] == "knight"
  {
  }

  lemma KnightFromToken()
    ensures RolesByString["knight"] == Knight
  {
  }

  lemma ThiefToken()
    ensures RolesStrings[Thief] == "assassin"
  {
  }

  lemma ThiefFromToken()
    ensures RolesByString["assassin"] == Thief
  {
  }

  lemma RangerToken()
    ensures RolesStrings[Ranger] == "ranger"
  {
  }

  lemma RangerFromToken()
    ensures RolesByString["ranger"] == Ranger
  {
  }

  lemma MageToken()
    ensures RolesStrings[Mage] == "mage"
  {
  }

  lemma MageFromToken()
    ensures RolesByString["mage"] == Mage
  {
  }

  lemma SoulWeaverToken()
    ensures RolesStrings[SoulWeaver] == "manauser"
  {
  }

  lemma SoulWeaverFromToken()
    ensures RolesByString["manauser"] == SoulWeaver
  {
  }

  lemma RoleTokensSafe1()
    ensures JsonSafe("warrior")
    ensures JsonSafe("knight")
    ensures JsonSafe("assassin")
  {
  }

  lemma RoleTokensSafe2()
    ensures JsonSafe("ranger")
    ensures JsonSafe("mage")
    ensures JsonSafe("manauser")
  {
  }

  lemma RoleTokenDomain()
    ensures forall s | s in RolesByString ::
      s == "warrior" || s == "knight" || s == "assassin" || s == "ranger" || s == "mage"
      || s == "manauser"
  {
  }

  lemma RoleValueDomain()
    ensures forall v | v in RolesStrings :: v == Warrior || v == Knight || v == Thief || v == Ranger || v == Mage || v == SoulWeaver
  {
  }

  lemma RoleForward()
    ensures forall v | v in RolesStrings :: RolesStrings[v] in RolesByString && RolesByString[RolesStrings[v]] == v
  {
    RoleValueDomain();
    WarriorToken();
    WarriorFromToken();
    KnightToken();
    KnightFromToken();
    ThiefToken();
    ThiefFromToken();
    RangerToken();
    RangerFromToken();
    MageToken();
    MageFromToken();
    SoulWeaverToken();
    SoulWeaverFromToken();
  }

  lemma RoleBackward()
    ensures forall s | s in RolesByString :: RolesByString[s] in RolesStrings && RolesStrings[RolesByString[s]] == s
  {
    RoleTokenDomain();
    WarriorToken();
    WarriorFromToken();
    KnightToken();
    KnightFromToken();
    ThiefToken();
    ThiefFromToken();
    RangerToken();
    RangerFromToken();
    MageToken();
    MageFromToken();
    SoulWeaverToken();
    SoulWeaverFromToken();
  }

  /** The two tables are mutual inverses over 6 distinct tokens, each of
      which can be quoted without escaping. */
  lemma RoleTables()
    ensures WellFormed(RoleCodec)
    ensures RolesStrings.Keys == {Warrior, Knight, Thief, Ranger, Mage, SoulWeaver}
  {
    RoleForward();
    RoleBackward();
    RoleTokensSafe1();
    RoleTokensSafe2();
  }

  /** A value is a defined role exactly when it lies in 0..5. */
  lemma DefinedRoles(r: Role)
    ensures r in RolesStrings <==> 0 <= r <= 5
  {
  }

  /** For every defined role, UnmarshalJSON of MarshalJSON's bytes succeeds
      with that role. */
  lemma RoleRoundTrip(r: Role)
    requires r in RolesStrings
    ensures Parse(RoleCodec, Quoted(String(RoleCodec, r))) == W.Success(r)
  {
    RoleTables();
    ParseMarshal(RoleCodec, r);
  }

  /** The API calls thieves assassins and soul weavers manausers. */
  lemma RoleWireNames()
    ensures String(RoleCodec, Thief) == "assassin"
    ensures Parse(RoleCodec, Quoted("assassin")) == W.Success(Thief)
    ensures String(RoleCodec, SoulWeaver) == "manauser"
    ensures Parse(RoleCodec, Quoted("manauser")) == W.Success(SoulWeaver)
  {
    ThiefToken();
    SoulWeaverToken();
    RoleRoundTrip(Thief);
    RoleRoundTrip(SoulWeaver);
  }

  /** A quoted string that is not a role token gives ErrUnknownRole. */
  lemma UnknownRole(s: string)
    requires JsonSafe(s)
    requires s !in RolesByString
    ensures Parse(RoleCodec, Quoted(s)) == W.Failure(ErrUnknownRole)
  {
    ParseRejectsUnknown(RoleCodec, s);
  }

  /** The quoted string "test" is rejected with ErrUnknownRole. */
  lemma TestIsUnknownRole()
    ensures Parse(RoleCodec, Quoted("test")) == W.Failure(ErrUnknownRole)
  {
    UnknownRole("test");
  }
}
