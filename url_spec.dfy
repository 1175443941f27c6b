/** The URL record the setters work on, the collaborators they call, and
    each setter as a function from the record before the call to the record
    after it and the boolean the setter returns. */
module UrlSpec {
  import opened Optional
  import opened Unicode
  import opened Helpers

  /** The port as the record hands it back: an unsigned 32-bit value. */
  type u32 = x: int | 0 <= x < 0x1_0000_0000

  /** The scheme kinds of the URL record; every kind but NotSpecial is a
      special scheme. */
  datatype SchemeType = Http | NotSpecial | Https | Ws | Ftp | Wss | File
  {
    predicate IsSpecial()
    {
      this != NotSpecial
    }
  }

  /** The percent-encode sets the setters pick from. */
  datatype EncodeSet = FragmentSet | UserinfoSet | QuerySet | SpecialQuerySet

  /** The percent-encoder: a total, deterministic function of a string and
      an encode set. */
  type Encoder = (seq<char>, EncodeSet) -> seq<char>

  /** What the prepared-path parser reports: success, and the path it built. */
  datatype PreparedPath = PreparedPath(ok: bool, path: seq<char>)

  /** The prepared-path parser: given the prepared input, the scheme kind and
      the current path, it reports success and the new path. */
  type PathParser = (seq<char>, SchemeType, seq<char>) -> PreparedPath

  /** What the port parser leaves behind: the port field, and whether it
      kept the record valid. */
  datatype ParsedPort = ParsedPort(port: Option<u32>, valid: bool)

  /** The port parser: given the sanitised input and the current port. */
  type PortParser = (seq<char>, Option<u32>) -> ParsedPort

  /** The fields of the URL record that the setters read or write. */
  datatype UrlState = UrlState(
    scheme: SchemeType,
    host: Option<seq<char>>,
    username: seq<char>,
    password: seq<char>,
    port: Option<u32>,
    pathname: seq<char>,
    hasOpaquePath: bool,
    query: Option<seq<char>>,
    fragment: Option<seq<char>>,
    isValid: bool)
  {
    /** A URL whose host is absent or empty, or whose scheme is file, can
        carry neither credentials nor a port. */
    predicate CannotHaveCredentialsOrPort()
    {
      host.None? || host == Some([]) || scheme == File
    }

    predicate HasHostname()
    {
      host.Some?
    }

    /** What holds between two public calls: the validity flag is set, an
        opaque path belongs to a non-special URL without a host, and a URL
        that cannot have credentials or a port carries none. */
    predicate Valid()
    {
      && isValid
      && (hasOpaquePath ==> !scheme.IsSpecial() && host.None?)
      && (CannotHaveCredentialsOrPort() ==> username == [] && password == [] && port.None?)
    }
  }

  /** The record after a setter, and the boolean the setter returns. */
  datatype Outcome = Outcome(url: UrlState, ok: bool)

  /** Special schemes percent-encode the query with the stricter set. */
  function QueryEncodeSet(scheme: SchemeType): EncodeSet
  {
    if scheme.IsSpecial() then SpecialQuerySet else QuerySet
  }

  /** `s` without its first character when that character is `c`. */
  function DropLeading(s: seq<char>, c: char): seq<char>
  {
    if s != [] && s[0] == c then s[1..] else s
  }

  /** Removing the trailing spaces of an opaque path: only when the path is
      opaque and neither a fragment nor a query is present. */
  function StripTrailingSpacesFromOpaquePath(s: UrlState): (t: UrlState)
    ensures t.(pathname := s.pathname) == s
    ensures t.pathname != s.pathname ==> s.hasOpaquePath && s.fragment.None? && s.query.None?
    ensures s.hasOpaquePath && s.fragment.None? && s.query.None? ==>
              t.pathname == TrimTrailingSpaces(s.pathname)
  {
    if !s.hasOpaquePath || s.fragment.Some? || s.query.Some? then s
    else s.(pathname := TrimTrailingSpaces(s.pathname))
  }

  /** The fragment setter. It never fails. */
  function SetHash(s: UrlState, input: seq<char>, encode: Encoder): (t: UrlState)
    ensures t.(fragment := s.fragment, pathname := s.pathname) == s
    ensures t.fragment.None? <==> input == []
    ensures t.pathname != s.pathname ==> input == [] && s.hasOpaquePath
  {
    if input == [] then
      StripTrailingSpacesFromOpaquePath(s.(fragment := None))
    else
      var newValue := WithoutTabOrNewline(DropLeading(input, '#'));
      s.(fragment := Some(encode(newValue, FragmentSet)))
  }

  /** The pathname setter: refused on an opaque path, otherwise the path is
      emptied and parsed afresh. */
  function SetPathname(s: UrlState, input: seq<char>, prepare: PathParser): (r: Outcome)
    ensures r.url.(pathname := s.pathname) == s
    ensures s.hasOpaquePath ==> r == Outcome(s, false)
    ensures !s.hasOpaquePath && WithoutTabOrNewline(input) != [] ==>
              var parsed := prepare(SegmentInput(s.scheme, WithoutTabOrNewline(input)), s.scheme, []);
              r == Outcome(s.(pathname := parsed.path), parsed.ok)
  {
    if s.hasOpaquePath then Outcome(s, false)
    else ParsePath(s.(pathname := []), input, prepare)
  }

  /** The username setter. */
  function SetUsername(s: UrlState, input: seq<char>, encode: Encoder): (r: Outcome)
    ensures r.ok <==> !s.CannotHaveCredentialsOrPort()
    ensures r.url.(username := s.username) == s
    ensures !r.ok ==> r.url == s
    ensures r.ok ==> r.url.username == encode(input, UserinfoSet)
  {
    if s.CannotHaveCredentialsOrPort() then Outcome(s, false)
    else Outcome(s.(username := encode(input, UserinfoSet)), true)
  }

  /** The password setter. */
  function SetPassword(s: UrlState, input: seq<char>, encode: Encoder): (r: Outcome)
    ensures r.ok <==> !s.CannotHaveCredentialsOrPort()
    ensures r.url.(password := s.password) == s
    ensures !r.ok ==> r.url == s
    ensures r.ok ==> r.url.password == encode(input, UserinfoSet)
  {
    if s.CannotHaveCredentialsOrPort() then Outcome(s, false)
    else Outcome(s.(password := encode(input, UserinfoSet)), true)
  }

  /** The query setter. It never fails. */
  function SetSearch(s: UrlState, input: seq<char>, encode: Encoder): (t: UrlState)
    ensures t.(query := s.query, pathname := s.pathname) == s
    ensures t.query.None? <==> input == []
    ensures t.pathname != s.pathname ==> input == [] && s.hasOpaquePath
  {
    if input == [] then
      StripTrailingSpacesFromOpaquePath(s.(query := None))
    else
      var newValue := WithoutTabOrNewline(DropLeading(input, '?'));
      s.(query := Some(encode(newValue, QueryEncodeSet(s.scheme))))
  }

  /** The port setter, with its rollback: when the port parser clears the
      validity flag, the port is put back and the flag set again. */
  function SetPort(s: UrlState, input: seq<char>, parsePort: PortParser): (r: Outcome)
    ensures r.url.(port := s.port, isValid := s.isValid) == s
    ensures !r.ok ==> r.url.port == s.port
    ensures s.isValid ==> r.url.isValid
    ensures r.ok ==> !s.CannotHaveCredentialsOrPort()
  {
    if s.CannotHaveCredentialsOrPort() then Outcome(s, false)
    else
      var trimmed := WithoutTabOrNewline(input);
      if trimmed == [] then Outcome(s.(port := None), true)
      else if IsC0ControlOrSpace(trimmed[0]) then Outcome(s, false)
      else if FindFirstDigit(input).None? then Outcome(s, false)
      else
        var previousPort := s.port;
        var parsed := parsePort(trimmed, s.port);
        var attempted := s.(port := parsed.port, isValid := s.isValid && parsed.valid);
        if attempted.isValid then Outcome(attempted, true)
        else Outcome(attempted.(port := previousPort, isValid := true), false)
  }

  /** What the path parser hands to the prepared-path parser: the sanitised
      input without one leading `/`, or without one leading `\` when the
      scheme is special. */
  function SegmentInput(scheme: SchemeType, internalInput: seq<char>): (rest: seq<char>)
    requires internalInput != []
    ensures |rest| + 1 == |internalInput| <==>
              internalInput[0] == '/' || (scheme.IsSpecial() && internalInput[0] == '\\')
    ensures rest == internalInput || rest == internalInput[1..]
  {
    if internalInput[0] == '/' || (scheme.IsSpecial() && internalInput[0] == '\\') then internalInput[1..]
    else internalInput
  }

  /** The path parser behind the pathname setter: tab and newline removed,
      one leading separator dropped (`/`, or also `\` for special schemes),
      the rest handed to the prepared-path parser; an empty input defaults
      the path to `/` for special schemes and for host-less others. */
  function ParsePath(s: UrlState, input: seq<char>, prepare: PathParser): (r: Outcome)
    ensures r.url.(pathname := s.pathname) == s
    ensures WithoutTabOrNewline(input) == [] ==> r.ok
    ensures WithoutTabOrNewline(input) == [] && (s.scheme.IsSpecial() || !s.HasHostname()) ==>
              r.url.pathname == "/"
    ensures WithoutTabOrNewline(input) == [] && !s.scheme.IsSpecial() && s.HasHostname() ==>
              r == Outcome(s, true)
    ensures WithoutTabOrNewline(input) != [] ==>
              var parsed := prepare(SegmentInput(s.scheme, WithoutTabOrNewline(input)), s.scheme, s.pathname);
              r == Outcome(s.(pathname := parsed.path), parsed.ok)
  {
    var internalInput := WithoutTabOrNewline(input);
    if s.scheme.IsSpecial() then
      if internalInput == [] then Outcome(s.(pathname := "/"), true)
      else if internalInput[0] == '/' || internalInput[0] == '\\' then
        var parsed := prepare(internalInput[1..], s.scheme, s.pathname);
        Outcome(s.(pathname := parsed.path), parsed.ok)
      else
        var parsed := prepare(internalInput, s.scheme, s.pathname);
        Outcome(s.(pathname := parsed.path), parsed.ok)
    else if internalInput != [] then
      if internalInput[0] == '/' then
        var parsed := prepare(internalInput[1..], s.scheme, s.pathname);
        Outcome(s.(pathname := parsed.path), parsed.ok)
      else
        var parsed := prepare(internalInput, s.scheme, s.pathname);
        Outcome(s.(pathname := parsed.path), parsed.ok)
    else if !s.HasHostname() then Outcome(s.(pathname := "/"), true)
    else Outcome(s, true)
  }
}
