/** The part of Go's net/url that Client.NewRequest relies on (e7/e7api.go,
    `c.BaseURL.Parse(urlStr)`): parsing a reference that names no scheme and no
    authority, and resolving it against the client's base URL as section 5.2 of
    RFC 3986 describes and net/url implements it. Paths are kept in the
    escaped form they were written in. */
module Urls {
  import opened Wrappers
  import Json

  /** A parsed absolute URL: the parts the client uses. */
  datatype Url = Url(scheme: string, host: string, path: string, query: Option<string>, fragment: string)

  /** URL.String() for a URL with a scheme and a host. */
  function UrlString(u: Url): (r: string)
  {
    u.scheme + "://" + u.host + u.path
    + (if u.query.Some? then "?" + u.query.value else "")
    + (if u.fragment != "" then "#" + u.fragment else "")
  }

  /** Why url.Parse rejected a reference. */
  datatype UrlError =
    | InvalidControlCharacter  // "net/url: invalid control character in URL"
    | MissingScheme            // "missing protocol scheme": the reference starts with ':'
    | ColonInFirstSegment      // "first path segment in URL cannot contain colon"
    | InvalidEscape            // a '%' not followed by two hexadecimal digits

  /** A reference without scheme or authority: its path, its query (None when
      there is no '?'; Some("") for a bare '?', Go's ForceQuery) and its fragment. */
  datatype Reference = Reference(path: string, query: Option<string>, fragment: string)

  // ----- Scanning -------------------------------------------------------------

  /** The index of the first c in s, or -1. */
  function IndexOf(s: string, c: char): (i: int)
    ensures -1 <= i < |s|
    ensures i == -1 <==> c !in s
    ensures i >= 0 ==> s[i] == c && c !in s[..i]
  {
    if s == [] then -1
    else if s[0] == c then 0
    else
      var j := IndexOf(s[1..], c);
      assert s[1..] == s[1..][..];
      if j == -1 then -1
      else
        assert s[..j + 1] == [s[0]] + s[1..][..j];
        j + 1
  }

  /** The index of the last '/' in s, or -1 (strings.LastIndex(s, "/")). */
  function LastSlash(s: string): (i: int)
    ensures -1 <= i < |s|
    ensures i == -1 <==> '/' !in s
    ensures i >= 0 ==> s[i] == '/' && '/' !in s[i + 1..]
  {
    if s == [] then -1
    else if s[|s| - 1] == '/' then |s| - 1
    else
      var t := s[..|s| - 1];
      var j := LastSlash(t);
      assert s == t + [s[|s| - 1]];
      assert j >= 0 ==> s[j] == t[j] && s[j + 1..] == t[j + 1..] + [s[|s| - 1]];
      j
  }

  /** strings.Cut(s, string(c)): the text before the first c, the text after
      it, and whether there was one. */
  function Cut(s: string, c: char): (r: (string, string, bool))
    ensures !r.2 ==> r.0 == s && r.1 == [] && c !in s
    ensures r.2 ==> s == r.0 + [c] + r.1 && c !in r.0
  {
    var i := IndexOf(s, c);
    if i == -1 then (s, [], false)
    else
      assert s == s[..i] + [c] + s[i + 1..];
      (s[..i], s[i + 1..], true)
  }

  /** url.stringContainsCTLByte. */
  predicate HasControl(s: string)
  {
    exists i | 0 <= i < |s| :: s[i] < ' ' || s[i] == '\U{007F}'
  }

  predicate IsLetter(c: char)
  {
    'a' <= c <= 'z' || 'A' <= c <= 'Z'
  }

  predicate IsSchemeChar(c: char)
  {
    IsLetter(c) || '0' <= c <= '9' || c == '+' || c == '-' || c == '.'
  }

  /** What url.getScheme finds at the start of s. */
  datatype SchemeScan = NoScheme | EmptyScheme | Scheme(name: string)

  /** url.getScheme, scanning from index i with s[..i] all scheme characters
      and s[0] a letter. */
  function ScanScheme(s: string, i: nat): (r: SchemeScan)
    requires i <= |s|
    decreases |s| - i
  {
    if i == |s| then NoScheme
    else if IsLetter(s[i]) then ScanScheme(s, i + 1)
    else if IsSchemeChar(s[i]) then (if i == 0 then NoScheme else ScanScheme(s, i + 1))
    else if s[i] == ':' then (if i == 0 then EmptyScheme else Scheme(s[..i]))
    else NoScheme
  }

  /** Every '%' in s starts an escape `%XX` (url.unescape in path and fragment mode). */
  predicate ValidEscapes(s: string)
    decreases |s|
  {
    if s == [] then true
    else if s[0] == '%' then
      |s| >= 3 && Json.HexDigit(s[1]).Some? && Json.HexDigit(s[2]).Some? && ValidEscapes(s[3..])
    else ValidEscapes(s[1..])
  }

  // ----- Parsing a reference --------------------------------------------------

  /** The reference before its fragment, and its path before the query. */
  function BeforeFragment(ref: string): (r: string)
  {
    Cut(ref, '#').0
  }

  function PathPart(ref: string): (r: string)
  {
    Cut(BeforeFragment(ref), '?').0
  }

  /** A reference url.Parse reads as absolute (it names a scheme) or as
      network-path (it starts with "//" but not "///"); resolving those is not
      part of this model. */
  predicate Unmodelled(ref: string)
  {
    var u := BeforeFragment(ref);
    !HasControl(u)
    && (ScanScheme(u, 0).Scheme?
        || (ScanScheme(u, 0).NoScheme? && |PathPart(ref)| >= 2 && PathPart(ref)[..2] == "//"
            && !(|PathPart(ref)| >= 3 && PathPart(ref)[2] == '/')))
  }

  /** url.Parse(ref) for a reference without scheme or authority: checks in the
      order net/url makes them. */
  function ParseReference(ref: string): (r: Result<Reference, UrlError>)
    requires !Unmodelled(ref)
    ensures r.Success? ==>
      && ValidEscapes(r.value.path) && ValidEscapes(r.value.fragment)
      && '?' !in r.value.path && '#' !in r.value.path
      && (r.value.query.Some? <==> '?' in BeforeFragment(ref))
      && (r.value.path == [] || r.value.path[0] == '/' || ':' !in Cut(r.value.path, '/').0)
  {
    var (u, frag, hasFrag) := Cut(ref, '#');
    if HasControl(u) then Failure(InvalidControlCharacter)
    else if ScanScheme(u, 0).EmptyScheme? then Failure(MissingScheme)
    else
      var (p, q, hasQuery) := Cut(u, '?');
      if (p == [] || p[0] != '/') && ':' in Cut(p, '/').0 then Failure(ColonInFirstSegment)
      else if !ValidEscapes(p) || !ValidEscapes(frag) then Failure(InvalidEscape)
      else Success(Reference(p, if hasQuery then Some(q) else None, frag))
  }

  /** A control character before the fragment is the first error url.Parse
      reports, whatever else the reference holds. */
  lemma ControlCharacterRejected(ref: string)
    requires HasControl(BeforeFragment(ref))
    ensures !Unmodelled(ref) && ParseReference(ref) == Failure(InvalidControlCharacter)
  {
  }

  // ----- Resolving ------------------------------------------------------------

  /** One turn of the loop in url.resolvePath: the output so far (which starts
      with '/') and whether the next segment is the first, after element elem. */
  function DotStep(dst: string, first: bool, elem: string): (r: (string, bool))
    requires |dst| >= 1 && dst[0] == '/'
    ensures |r.0| >= 1 && r.0[0] == '/'
  {
    if elem == "." then (dst, false)
    else if elem == ".." then
      var str := dst[1..];
      var index := LastSlash(str);
      if index == -1 then ("/", true) else ("/" + str[..index], first)
    else (dst + (if first then "" else "/") + elem, false)
  }

  /** The loop in url.resolvePath over the '/'-separated elements of
      `remaining`: the output and the last element. */
  function DotLoop(dst: string, first: bool, remaining: string): (r: (string, string))
    requires |dst| >= 1 && dst[0] == '/'
    ensures |r.0| >= 1 && r.0[0] == '/'
    decreases |remaining|
  {
    var (elem, rest, found) := Cut(remaining, '/');
    var (dst', first') := DotStep(dst, first, elem);
    if found then DotLoop(dst', first', rest) else (dst', elem)
  }

  /** url.resolvePath: merge the reference path with the base path and remove
      the dot segments (section 5.2.4 of RFC 3986). */
  function ResolvePath(base: string, ref: string): (r: string)
    ensures r == [] <==> base == [] && ref == []
    ensures r != [] ==> r[0] == '/'
  {
    var full := if ref == [] then base
                else if ref[0] != '/' then base[..LastSlash(base) + 1] + ref
                else ref;
    if full == [] then []
    else
      var (dst, last) := DotLoop("/", true, full);
      var r := if last == "." || last == ".." then dst + "/" else dst;
      if |r| > 1 && r[1] == '/' then r[1..] else r
  }

  /** URL.ResolveReference for a reference without scheme or authority: scheme
      and host come from the base; so do the query and fragment when the
      reference has neither path nor query. */
  function Resolve(base: Url, ref: Reference): (r: Url)
    ensures r.scheme == base.scheme && r.host == base.host
    ensures r.path == ResolvePath(base.path, ref.path)
    ensures ref.path != [] || ref.query.Some? ==> r.query == ref.query && r.fragment == ref.fragment
    ensures ref.path == [] && ref.query.None? ==>
      r.query == base.query && r.fragment == (if ref.fragment == [] then base.fragment else ref.fragment)
  {
    var inherit := ref.path == [] && ref.query.None?;
    Url(base.scheme, base.host, ResolvePath(base.path, ref.path),
        if inherit then base.query else ref.query,
        if inherit && ref.fragment == [] then base.fragment else ref.fragment)
  }

  // ----- Properties -----------------------------------------------------------

  /** Parsing splits the reference at its first '#' and then at its first
      '?': path, query and fragment put back together with their separators
      give the reference. */
  lemma ReferenceReassembles(ref: string)
    requires !Unmodelled(ref) && ParseReference(ref).Success?
    ensures var r := ParseReference(ref).value;
      ref == r.path + (if r.query.Some? then "?" + r.query.value else "")
             + (if '#' in ref then "#" + r.fragment else "")
  {
    ReferenceParts(ref);
    CutsReassemble(ref);
  }

  lemma CutsReassemble(ref: string)
    ensures var (u, frag, hasFrag) := Cut(ref, '#');
      var (p, q, hasQuery) := Cut(u, '?');
      ref == p + (if hasQuery then "?" + q else "") + (if '#' in ref then "#" + frag else "")
  {
    var f := Cut(ref, '#');
    var g := Cut(f.0, '?');
    CutJoin(ref, '#');
    CutJoin(f.0, '?');
    var x := if g.2 then "?" + g.1 else "";
    var y := if '#' in ref then "#" + f.1 else "";
    assert ref == (g.0 + x) + y;
  }

  /** Cutting and putting the separator back gives the text. */
  lemma CutJoin(s: string, c: char)
    ensures Cut(s, c).2 <==> c in s
    ensures s == Cut(s, c).0 + (if Cut(s, c).2 then [c] + Cut(s, c).1 else [])
  {
    var r := Cut(s, c);
    if r.2 {
      assert s[|r.0|] == c;
      assert s == r.0 + ([c] + r.1);
    }
  }

  lemma ReferenceParts(ref: string)
    requires !Unmodelled(ref) && ParseReference(ref).Success?
    ensures ParseReference(ref).value
      == Reference(Cut(Cut(ref, '#').0, '?').0,
                   if Cut(Cut(ref, '#').0, '?').2 then Some(Cut(Cut(ref, '#').0, '?').1) else None,
                   Cut(ref, '#').1)
  {
    var f := Cut(ref, '#');
    var g := Cut(f.0, '?');
    var r := ParseReference(ref);
    assert r == Success(Reference(g.0, if g.2 then Some(g.1) else None, f.1));
  }

  /** A character that is neither a delimiter url.Parse looks for ('?', '#',
      ':'), nor an escape ('%'), nor a control character. */
  predicate PathChar(c: char)
  {
    c != '?' && c != '#' && c != '%' && c != ':' && ' ' <= c && c != '\U{007F}'
  }

  /** A reference made of path characters only (no '?', '#', '%', ':' or
      control character) parses to the path it is. */
  lemma PlainReference(ref: string)
    requires forall i | 0 <= i < |ref| :: PathChar(ref[i])
    ensures !Unmodelled(ref) || (|ref| >= 2 && ref[..2] == "//")
    ensures !Unmodelled(ref) ==> ParseReference(ref) == Success(Reference(ref, None, ""))
  {
    assert Cut(ref, '#') == (ref, [], false);
    assert Cut(ref, '?') == (ref, [], false);
    PlainEscapes(ref);
    PlainScheme(ref, 0);
  }

  lemma PlainEscapes(s: string)
    requires forall i | 0 <= i < |s| :: s[i] != '%'
    ensures ValidEscapes(s)
  {
    if s != [] {
      PlainEscapes(s[1..]);
    }
  }

  lemma PlainScheme(s: string, i: nat)
    requires i <= |s|
    requires forall k | 0 <= k < |s| :: s[k] != ':'
    ensures ScanScheme(s, i) == NoScheme
    decreases |s| - i
  {
    if i < |s| {
      PlainScheme(s, i + 1);
    }
  }

  /** No '/'-separated element of s is "." or "..". */
  predicate NoDotSegments(s: string)
    decreases |s|
  {
    var (elem, rest, found) := Cut(s, '/');
    elem != "." && elem != ".." && (found ==> NoDotSegments(rest))
  }

  /** Without dot segments the loop only puts the elements back together. */
  lemma {:induction false} DotLoopPlain(dst: string, first: bool, s: string)
    requires |dst| >= 1 && dst[0] == '/'
    requires NoDotSegments(s)
    ensures DotLoop(dst, first, s).0 == dst + (if first then "" else "/") + s
    ensures DotLoop(dst, first, s).1 != "." && DotLoop(dst, first, s).1 != ".."
    decreases |s|
  {
    var c := Cut(s, '/');
    var sep := if first then "" else "/";
    DotStepPlain(dst, first, c.0);
    if c.2 {
      DotLoopPlain(dst + sep + c.0, false, c.1);
      JoinAround(dst + sep, c.0, c.1, s);
    }
  }

  /** A step over an element that is neither "." nor ".." appends it. */
  lemma DotStepPlain(dst: string, first: bool, elem: string)
    requires |dst| >= 1 && dst[0] == '/'
    requires elem != "." && elem != ".."
    ensures DotStep(dst, first, elem) == (dst + (if first then "" else "/") + elem, false)
  {
  }

  lemma JoinAround(prefix: string, elem: string, rest: string, s: string)
    requires s == elem + "/" + rest
    ensures (prefix + elem) + "/" + rest == prefix + s
  {
  }

  /** An absolute path without dot segments resolves to itself. */
  lemma ResolveAbsolutePlain(base: string, ref: string)
    requires ref != [] && ref[0] == '/' && NoDotSegments(ref)
    ensures ResolvePath(base, ref) == ref
  {
    DotLoopPlain("/", true, ref);
  }

  /** A relative path without dot segments is appended to a base path that
      ends in '/' and has no dot segments of its own. */
  lemma ResolveRelativePlain(base: string, ref: string)
    requires base != [] && base[0] == '/' && base[|base| - 1] == '/'
    requires ref != [] && ref[0] != '/'
    requires NoDotSegments(base + ref)
    ensures ResolvePath(base, ref) == base + ref
  {
    assert base[..LastSlash(base) + 1] == base;
    DotLoopPlain("/", true, base + ref);
  }
}
