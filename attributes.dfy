/** e7/attribute.go: a hero's attribute, its wire tokens and its codec. */
module Attributes {
  import W = Wrappers
  import opened Json
  import opened Enum

  /** Go's `type Attribute int` (a 64-bit int). */
  newtype Attribute = x: int | -0x8000_0000_0000_0000 <= x < 0x8000_0000_0000_0000

  // `None = -1` is an untyped constant on the first line of the const block;
  // `Fire Attribute = iota` stands on the second line, where iota is 1. So
  // the defined attributes are -1 and 1 to 5, and the zero value 0 is not one.
  const None: Attribute := -1
  const Fire: Attribute := 1
  const Ice: Attribute := 2
  const Earth: Attribute := 3
  const Light: Attribute := 4
  const Dark: Attribute := 5

  /** attributeStrings: variant to wire token. */
  const AttributeStrings: map<Attribute, string> := map[
      None := "none",
      Fire := "fire",
      Ice := "ice",
      Earth := "wind",
      Light := "light",
      Dark := "dark"]

  /** attributes: wire token to variant. */
  const AttributesByString: map<string, Attribute> := map[
      "none" := None,
      "fire" := Fire,
      "ice" := Ice,
      "wind" := Earth,
      "light" := Light,
      "dark" := Dark]

  const ErrUnknownAttribute: CodecError := Unknown(AttributeKind)

  const AttributeCodec: Codec<Attribute> := Codec(AttributeStrings, AttributesByString, ErrUnknownAttribute)

  // Table facts, one lookup at a time, and the characters of each token.
  // Each lemma states a single lookup in a literal map, and the tokens are
  // checked a few at a time: one proof per fact keeps the solver's work
  // small and the same on every run.
  lemma NoneToken()
    ensures AttributeStrings[None] == "none"
  {
  }

  lemma NoneFromToken()
    ensures AttributesByString["none"] == None
  {
  }

  lemma FireToken()
    ensures AttributeStrings[Fire] == "fire"
  {
  }

  lemma FireFromToken()
    ensures AttributesByString["fire"] == Fire
  {
  }

  lemma IceToken()
    ensures AttributeStrings[Ice] == "ice"
  {
  }

  lemma IceFromToken()
    ensures AttributesByString["ice"] == Ice
  {
  }

  lemma EarthToken()
    ensures AttributeStrings[Earth] == "wind"
  {
  }

  lemma EarthFromToken()
    ensures AttributesByString["wind"] == Earth
  {
  }

  lemma LightToken()
    ensures AttributeStrings[Light] == "light"
  {
  }

  lemma LightFromToken()
    ensures AttributesByString["light"] == Light
  {
  }

  lemma DarkToken()
    ensures AttributeStrings[Dark] == "dark"
  {
  }

  lemma DarkFromToken()
    ensures AttributesByString["dark"] == Dark
  {
  }

  lemma AttributeTokensSafe1()
    ensures JsonSafe("none")
    ensures JsonSafe("fire")
    ensures JsonSafe("ice")
  {
  }

  lemma AttributeTokensSafe2()
    ensures JsonSafe("wind")
    ensures JsonSafe("light")
    ensures JsonSafe("dark")
  {
  }

  lemma AttributeTokenDomain()
    ensures forall s | s in AttributesByString ::
      s == "none" || s == "fire" || s == "ice" || s == "wind" || s == "light" || s == "dark"
  {
  }

  lemma AttributeValueDomain()
    ensures forall v | v in AttributeStrings :: v == None || v == Fire || v == Ice || v == Earth || v == Light || v == Dark
  {
  }

  lemma AttributeForward()
    ensures forall v | v in AttributeStrings :: AttributeStrings[v] in AttributesByString && AttributesByString[AttributeStrings[v]] == v
  {
    AttributeValueDomain();
    NoneToken();
    NoneFromToken();
    FireToken();
    FireFromToken();
    IceToken();
    IceFromToken();
    EarthToken();
    EarthFromToken();
    LightToken();
    LightFromToken();
    DarkToken();
    DarkFromToken();
  }

  lemma AttributeBackward()
    ensures forall s | s in AttributesByString :: AttributesByString[s] in AttributeStrings && AttributeStrings[AttributesByString[s]] == s
  {
    AttributeTokenDomain();
    NoneToken();
    NoneFromToken();
    FireToken();
    FireFromToken();
    IceToken();
    IceFromToken();
    EarthToken();
    EarthFromToken();
    LightToken();
    LightFromToken();
    DarkToken();
    DarkFromToken();
  }

  /** The two tables are mutual inverses over 6 distinct tokens, each of
      which can be quoted without escaping. */
  lemma AttributeTables()
    ensures WellFormed(AttributeCodec)
    ensures AttributeStrings.Keys == {None, Fire, Ice, Earth, Light, Dark}
  {
    AttributeForward();
    AttributeBackward();
    AttributeTokensSafe1();
    AttributeTokensSafe2();
  }

  /** A value is a defined attribute exactly when it is -1 or lies in 1..5. */
  lemma DefinedAttributes(a: Attribute)
    ensures a in AttributeStrings <==> a == -1 || 1 <= a <= 5
  {
  }

  /** For every defined attribute, UnmarshalJSON of MarshalJSON's bytes succeeds
      with that attribute. */
  lemma AttributeRoundTrip(a: Attribute)
    requires a in AttributeStrings
    ensures Parse(AttributeCodec, Quoted(String(AttributeCodec, a))) == W.Success(a)
  {
    AttributeTables();
    ParseMarshal(AttributeCodec, a);
  }

  /** Earth goes on the wire as "wind", and "wind" comes back as Earth. */
  lemma AttributeWireNames()
    ensures String(AttributeCodec, Earth) == "wind"
    ensures Parse(AttributeCodec, Quoted("wind")) == W.Success(Earth)
  {
    EarthToken();
    AttributeRoundTrip(Earth);
  }

  /** A quoted string that is not an attribute token gives ErrUnknownAttribute. */
  lemma UnknownAttribute(s: string)
    requires JsonSafe(s)
    requires s !in AttributesByString
    ensures Parse(AttributeCodec, Quoted(s)) == W.Failure(ErrUnknownAttribute)
  {
    ParseRejectsUnknown(AttributeCodec, s);
  }

  /** The quoted string "test" is rejected with ErrUnknownAttribute. */
  lemma TestIsUnknownAttribute()
    ensures Parse(AttributeCodec, Quoted("test")) == W.Failure(ErrUnknownAttribute)
  {
    UnknownAttribute("test");
  }

  /** An integer outside the table, such as the zero value, renders as the
      empty string and marshals to `""`, which UnmarshalJSON then rejects: such
      a value does not survive a round trip. */
  lemma UndefinedAttribute(a: Attribute)
    requires a !in AttributeStrings
    ensures String(AttributeCodec, a) == ""
    ensures Quoted(String(AttributeCodec, a)) == "\"\""
    ensures Parse(AttributeCodec, Quoted(String(AttributeCodec, a))) == W.Failure(ErrUnknownAttribute)
  {
    UnknownAttribute("");
  }

  /** Since Fire is 1, the zero value of Attribute is not an attribute. */
  lemma ZeroIsNotAnAttribute()
    ensures (0 as Attribute) !in AttributeStrings
    ensures Parse(AttributeCodec, Quoted(String(AttributeCodec, 0))) == W.Failure(ErrUnknownAttribute)
  {
    UndefinedAttribute(0);
  }
}
