/** The enumerated wire-token codec that e7/attribute.go, e7/roles.go,
    e7/stat.go and e7/topic.go each spell out for their own integer type: a
    variant→token table, a token→variant table, String, MarshalJSON and
    UnmarshalJSON. Written once here, parameterised by the two tables and
    the type's own "unknown token" error. */
module Enum {
  import opened Wrappers
  import opened Json

  /** Which enumeration an unknown-token error comes from. */
  datatype Kind = AttributeKind | RoleKind | StatKind | TopicKind

  /** What UnmarshalJSON can return: the decode error of unquoting, or the
      type's sentinel for a token outside its table (ErrUnknownAttribute,
      ErrUnknownRole, ErrUnknownStat, ErrUnknownTopic). */
  datatype CodecError = Syntax(cause: JsonError) | Unknown(kind: Kind)

  /** One enumeration's vocabulary: `strings` is the variant→token map
      (attributeStrings, ...), `values` the token→variant map (attributes, ...). */
  datatype Codec<V> = Codec(strings: map<V, string>, values: map<string, V>, unknown: CodecError)

  /** The two tables undo each other, in both directions. */
  ghost predicate MutualInverses<V>(c: Codec<V>)
  {
    && (forall v | v in c.strings :: c.strings[v] in c.values && c.values[c.strings[v]] == v)
    && (forall s | s in c.values :: c.values[s] in c.strings && c.strings[c.values[s]] == s)
  }

  /** Every token can be quoted without escaping. */
  ghost predicate TokensJsonSafe<V>(c: Codec<V>)
  {
    forall v | v in c.strings :: JsonSafe(c.strings[v])
  }

  ghost predicate WellFormed<V>(c: Codec<V>)
  {
    MutualInverses(c) && TokensJsonSafe(c) && c.unknown.Unknown?
  }

  /** String: the token of v; a value outside the table reads as the empty
      string (the zero value of a Go map lookup). */
  function String<V>(c: Codec<V>, v: V): (r: string)
    ensures v !in c.strings ==> r == ""
    ensures MutualInverses(c) && v in c.strings ==> r in c.values && c.values[r] == v
  {
    if v in c.strings then c.strings[v] else ""
  }

  /** MarshalJSON: the token in quotation marks, never an error. */
  method MarshalJSON<V>(c: Codec<V>, v: V) returns (b: string, err: Option<CodecError>)
    ensures err == None
    ensures b == Quoted(String(c, v))
    ensures v !in c.strings ==> b == "\"\""
  {
    var buf := WriteStringBuffer(String(c, v));
    b, err := buf.Bytes(), None;
  }

  /** What UnmarshalJSON decides for the bytes b: the variant to store, or the
      error to return. */
  function Parse<V>(c: Codec<V>, b: string): (r: Result<V, CodecError>)
    ensures r.Success? <==> Unquote(b).Success? && Unquote(b).value in c.values
    ensures r.Success? ==> r.value == c.values[Unquote(b).value]
    ensures Unquote(b).Failure? ==> r == Failure(Syntax(Unquote(b).error))
    ensures Unquote(b).Success? && Unquote(b).value !in c.values ==> r == Failure(c.unknown)
  {
    match Unquote(b)
    case Failure(e) => Failure(Syntax(e))
    case Success(s) => if s in c.values then Success(c.values[s]) else Failure(c.unknown)
  }

  /** The variable UnmarshalJSON writes through its receiver (`*a`, `*r`, ...). */
  class Cell<V(==)> {
    var value: V

    constructor (v: V)
      ensures value == v
    {
      value := v;
    }

    /** UnmarshalJSON: unquote, look the string up, and store the variant only
        when both steps succeed; on an error the variable keeps its value. */
    method UnmarshalJSON(c: Codec<V>, b: string) returns (err: Option<CodecError>)
      modifies this
      ensures err == None <==> Parse(c, b).Success?
      ensures Parse(c, b).Success? ==> value == Parse(c, b).value
      ensures Parse(c, b).Failure? ==> err == Some(Parse(c, b).error) && value == old(value)
    {
      var s := Unquote(b);
      if s.Failure? {
        return Some(Syntax(s.error));
      }
      if s.value !in c.values {
        return Some(c.unknown);
      }
      value := c.values[s.value];
      return None;
    }
  }

  // ----- Properties of the codec pattern -------------------------------------

  /** Round trip: parsing what MarshalJSON writes for a defined variant gives
      that variant back. */
  lemma ParseMarshal<V>(c: Codec<V>, v: V)
    requires WellFormed(c)
    requires v in c.strings
    ensures Parse(c, Quoted(String(c, v))) == Success(v)
  {
    QuoteRoundTrip(c.strings[v]);
  }

  /** A well-formed quoted token outside the table is rejected with the
      type's own error. */
  lemma ParseRejectsUnknown<V>(c: Codec<V>, s: string)
    requires JsonSafe(s)
    requires s !in c.values
    ensures Parse(c, Quoted(s)) == Failure(c.unknown)
  {
    QuoteRoundTrip(s);
  }

  /** Bytes that do not unquote give the decode error, which is never the
      unknown-token error, and no table lookup decides the outcome. */
  lemma ParseDecodeError<V>(c: Codec<V>, b: string)
    requires WellFormed(c)
    requires Unquote(b).Failure?
    ensures Parse(c, b) == Failure(Syntax(Unquote(b).error))
    ensures Parse(c, b) != Failure(c.unknown)
  {
  }

  /** Parse accepts only what reads as a table token, and then answers with
      that token's variant, so it is the inverse of String on its successes. */
  lemma ParseSound<V>(c: Codec<V>, b: string)
    requires MutualInverses(c)
    requires Parse(c, b).Success?
    ensures Parse(c, b).value in c.strings
    ensures Unquote(b) == Success(String(c, Parse(c, b).value))
  {
  }

  /** Mutual inverses give distinct tokens to distinct variants. */
  lemma TokensDistinct<V>(c: Codec<V>, v: V, w: V)
    requires MutualInverses(c)
    requires v in c.strings && w in c.strings && v != w
    ensures c.strings[v] != c.strings[w]
  {
    assert c.values[c.strings[v]] == v;
    assert c.values[c.strings[w]] == w;
  }
}
