/** The URL object whose component setters rewrite one field in place. */
module UrlBase {
  import opened Optional
  import opened Unicode
  import opened Helpers
  import opened UrlSpec

  class Url {
    var scheme: SchemeType
    var host: Option<seq<char>>
    var username: seq<char>
    var password: seq<char>
    var port: Option<u32>
    var pathname: seq<char>
    var hasOpaquePath: bool
    var query: Option<seq<char>>
    var fragment: Option<seq<char>>
    var isValid: bool

    /** The fields as one value. */
    function State(): UrlState
      reads this
    {
      UrlState(scheme, host, username, password, port, pathname, hasOpaquePath, query, fragment, isValid)
    }

    /** Drops the trailing spaces of an opaque path when neither a fragment
        nor a query is present; otherwise changes nothing. */
    method StripTrailingSpacesFromOpaquePath()
      modifies this
      ensures State() == UrlSpec.StripTrailingSpacesFromOpaquePath(old(State()))
    {
      if !hasOpaquePath || fragment.Some? || query.Some? {
        return;
      }
      var path := pathname;
      while path != [] && path[|path| - 1] == ' '
        invariant TrimTrailingSpaces(path) == TrimTrailingSpaces(pathname)
        decreases |path|
      {
        path := path[..|path| - 1];
      }
      pathname := path;
    }

    method SetHash(input: seq<char>, encode: Encoder)
      modifies this
      ensures State() == UrlSpec.SetHash(old(State()), input, encode)
      ensures input == [] ==> fragment == None
      ensures old(State().Valid()) ==> State().Valid()
    {
      if |input| == 0 {
        fragment := None;
        StripTrailingSpacesFromOpaquePath();
        return;
      }
      var newValue := if input[0] == '#' then input[1..] else input;
      newValue := RemoveAsciiTabOrNewline(newValue);
      fragment := Some(encode(newValue, FragmentSet));
    }

    method SetPathname(input: seq<char>, prepare: PathParser) returns (ok: bool)
      modifies this
      ensures Outcome(State(), ok) == UrlSpec.SetPathname(old(State()), input, prepare)
      ensures old(hasOpaquePath) ==> !ok && State() == old(State())
      ensures old(State().Valid()) ==> State().Valid()
    {
      if hasOpaquePath {
        return false;
      }
      pathname := [];
      ok := ParsePath(input, prepare);
    }

    method SetUsername(input: seq<char>, encode: Encoder) returns (ok: bool)
      modifies this
      ensures Outcome(State(), ok) == UrlSpec.SetUsername(old(State()), input, encode)
      ensures !ok ==> State() == old(State())
      ensures old(State().Valid()) ==> State().Valid()
    {
      if State().CannotHaveCredentialsOrPort() {
        return false;
      }
      username := encode(input, UserinfoSet);
      return true;
    }

    method SetPassword(input: seq<char>, encode: Encoder) returns (ok: bool)
      modifies this
      ensures Outcome(State(), ok) == UrlSpec.SetPassword(old(State()), input, encode)
      ensures !ok ==> State() == old(State())
      ensures old(State().Valid()) ==> State().Valid()
    {
      if State().CannotHaveCredentialsOrPort() {
        return false;
      }
      password := encode(input, UserinfoSet);
      return true;
    }

    method SetSearch(input: seq<char>, encode: Encoder)
      modifies this
      ensures State() == UrlSpec.SetSearch(old(State()), input, encode)
      ensures input == [] ==> query == None
      ensures old(State().Valid()) ==> State().Valid()
    {
      if |input| == 0 {
        query := None;
        StripTrailingSpacesFromOpaquePath();
        return;
      }
      var newValue := if input[0] == '?' then input[1..] else input;
      newValue := RemoveAsciiTabOrNewline(newValue);
      var queryPercentEncodeSet := if scheme.IsSpecial() then SpecialQuerySet else QuerySet;
      query := Some(encode(newValue, queryPercentEncodeSet));
    }

    /** The port setter. The port parser may rewrite the port and may clear
        the validity flag; when it clears the flag, the port saved before
        the call is put back and the flag is set again. */
    method SetPort(input: seq<char>, parsePort: PortParser) returns (ok: bool)
      modifies this
      ensures Outcome(State(), ok) == UrlSpec.SetPort(old(State()), input, parsePort)
      ensures !ok ==> port == old(port)
      ensures old(isValid) ==> isValid
      ensures old(State().Valid()) ==> State().Valid()
    {
      if State().CannotHaveCredentialsOrPort() {
        return false;
      }
      var trimmed := RemoveAsciiTabOrNewline(input);
      if |trimmed| == 0 {
        port := None;
        return true;
      }
      if IsC0ControlOrSpace(trimmed[0]) {
        return false;
      }
      if FindFirstDigit(input).None? {
        return false;
      }
      var previousPort := port;
      // the port parser's effect on the record
      var parsed := parsePort(trimmed, port);
      port := parsed.port;
      if !parsed.valid {
        isValid := false;
      }
      if isValid {
        return true;
      }
      port := previousPort;
      isValid := true;
      return false;
    }

    method ParsePath(input: seq<char>, prepare: PathParser) returns (ok: bool)
      modifies this
      ensures Outcome(State(), ok) == UrlSpec.ParsePath(old(State()), input, prepare)
    {
      var internalInput: seq<char>;
      if HasTabsOrNewline(input) {
        var tmpBuffer := RemoveAsciiTabOrNewline(input);
        internalInput := tmpBuffer;
      } else {
        internalInput := input;
      }
      assert internalInput == WithoutTabOrNewline(input);
      if scheme.IsSpecial() {
        if |internalInput| == 0 {
          pathname := "/";
        } else if internalInput[0] == '/' || internalInput[0] == '\\' {
          var parsed := prepare(internalInput[1..], scheme, pathname);
          pathname := parsed.path;
          return parsed.ok;
        } else {
          var parsed := prepare(internalInput, scheme, pathname);
          pathname := parsed.path;
          return parsed.ok;
        }
      } else if |internalInput| != 0 {
        if internalInput[0] == '/' {
          var parsed := prepare(internalInput[1..], scheme, pathname);
          pathname := parsed.path;
          return parsed.ok;
        } else {
          var parsed := prepare(internalInput, scheme, pathname);
          pathname := parsed.path;
          return parsed.ok;
        }
      } else {
        if host.None? {
          pathname := "/";
        }
      }
      return true;
    }
  }
}
