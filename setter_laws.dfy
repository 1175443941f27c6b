/** What the setters promise across calls: which leading character is
    dropped, idempotence, independence of the credentials, the default
    path, the treatment of `\`, and the port setter's rejections and
    rollback. */
module SetterLaws {
  import opened Optional
  import opened Unicode
  import opened Helpers
  import opened UrlSpec

  // ---- fragment ----

  /** Exactly one leading `#` is removed, before tab and newline removal. */
  lemma HashDropsOneLeadingHash(s: UrlState, x: seq<char>, encode: Encoder)
    ensures SetHash(s, ['#'] + x, encode) == s.(fragment := Some(encode(WithoutTabOrNewline(x), FragmentSet)))
  {
  }

  /** With or without its leading `#`, a fragment is stored the same way. */
  lemma HashWithOrWithoutHash(s: UrlState, x: seq<char>, encode: Encoder)
    requires x != [] && x[0] != '#'
    ensures SetHash(s, ['#'] + x, encode) == SetHash(s, x, encode)
  {
  }

  /** An input that starts with a tab stores the whole sanitised rest: the
      leading-`#` test sees the tab, not what follows it. */
  lemma HashLeadingTabKeepsRest(s: UrlState, y: seq<char>, encode: Encoder)
    ensures SetHash(s, ['\t'] + y, encode).fragment == Some(encode(WithoutTabOrNewline(y), FragmentSet))
  {
    WithoutLeadingTabOrNewline('\t', y);
  }

  /** So a `#` after a leading tab is kept: `\t#x` stores `#x` where `#x`
      stores `x`. */
  lemma HashAfterTabIsKept(s: UrlState, x: seq<char>, encode: Encoder)
    ensures SetHash(s, ['\t'] + (['#'] + x), encode).fragment ==
              Some(encode(['#'] + WithoutTabOrNewline(x), FragmentSet))
    ensures SetHash(s, ['#'] + x, encode).fragment == Some(encode(WithoutTabOrNewline(x), FragmentSet))
  {
    HashLeadingTabKeepsRest(s, ['#'] + x, encode);
    WithoutTabOrNewlineKeepsLeading('#', x);
    HashDropsOneLeadingHash(s, x, encode);
  }

  /** Clearing the fragment trims the path of an opaque-path URL that has no
      query, and leaves every other path alone. */
  lemma HashClearTrimsOnlyOpaquePath(s: UrlState, encode: Encoder)
    ensures SetHash(s, [], encode).fragment == None
    ensures SetHash(s, [], encode).pathname ==
              if s.hasOpaquePath && s.query.None? then TrimTrailingSpaces(s.pathname) else s.pathname
  {
  }

  /** Setting the same fragment twice is setting it once. */
  lemma HashIdempotent(s: UrlState, x: seq<char>, encode: Encoder)
    ensures SetHash(SetHash(s, x, encode), x, encode) == SetHash(s, x, encode)
  {
  }

  // ---- query ----

  /** Exactly one leading `?` is removed, and the encode set follows the
      scheme kind. */
  lemma SearchDropsOneLeadingQuestionMark(s: UrlState, x: seq<char>, encode: Encoder)
    ensures SetSearch(s, ['?'] + x, encode) ==
              s.(query := Some(encode(WithoutTabOrNewline(x), QueryEncodeSet(s.scheme))))
  {
  }

  /** `?x=1` and `x=1` store the same query. */
  lemma SearchWithOrWithoutQuestionMark(s: UrlState, x: seq<char>, encode: Encoder)
    requires x != [] && x[0] != '?'
    ensures SetSearch(s, ['?'] + x, encode) == SetSearch(s, x, encode)
  {
  }

  /** Every special scheme encodes the query with the special-query set,
      every other scheme with the query set. */
  lemma SearchEncodeSetBySchemeKind(s: UrlState, x: seq<char>, encode: Encoder)
    requires x != [] && x[0] != '?'
    ensures s.scheme.IsSpecial() ==>
              SetSearch(s, x, encode).query == Some(encode(WithoutTabOrNewline(x), SpecialQuerySet))
    ensures !s.scheme.IsSpecial() ==>
              SetSearch(s, x, encode).query == Some(encode(WithoutTabOrNewline(x), QuerySet))
  {
  }

  /** Clearing the query trims the path of an opaque-path URL that has no
      fragment, and leaves every other path alone. */
  lemma SearchClearTrimsOnlyOpaquePath(s: UrlState, encode: Encoder)
    ensures SetSearch(s, [], encode).query == None
    ensures SetSearch(s, [], encode).pathname ==
              if s.hasOpaquePath && s.fragment.None? then TrimTrailingSpaces(s.pathname) else s.pathname
  {
  }

  /** Setting the same query twice is setting it once. */
  lemma SearchIdempotent(s: UrlState, x: seq<char>, encode: Encoder)
    ensures SetSearch(SetSearch(s, x, encode), x, encode) == SetSearch(s, x, encode)
  {
  }

  // ---- credentials ----

  /** Username and password are independent: either order gives the same
      record and the same results. */
  lemma CredentialsCommute(s: UrlState, user: seq<char>, pass: seq<char>, encode: Encoder)
    ensures SetPassword(SetUsername(s, user, encode).url, pass, encode).url ==
            SetUsername(SetPassword(s, pass, encode).url, user, encode).url
    ensures SetPassword(SetUsername(s, user, encode).url, pass, encode).ok == SetPassword(s, pass, encode).ok
  {
  }

  /** Setting the same username twice is setting it once. */
  lemma UsernameIdempotent(s: UrlState, x: seq<char>, encode: Encoder)
    ensures SetUsername(SetUsername(s, x, encode).url, x, encode) == SetUsername(s, x, encode)
  {
  }

  /** Setting the same password twice is setting it once. */
  lemma PasswordIdempotent(s: UrlState, x: seq<char>, encode: Encoder)
    ensures SetPassword(SetPassword(s, x, encode).url, x, encode) == SetPassword(s, x, encode)
  {
  }

  /** A URL that satisfies the between-calls invariant and has an opaque
      path has no host, so it refuses credentials and a port. */
  lemma OpaquePathRefusesCredentialsAndPort(s: UrlState, input: seq<char>, encode: Encoder,
                                            parsePort: PortParser)
    requires s.Valid() && s.hasOpaquePath
    ensures SetUsername(s, input, encode) == Outcome(s, false)
    ensures SetPassword(s, input, encode) == Outcome(s, false)
    ensures SetPort(s, input, parsePort) == Outcome(s, false)
  {
  }

  // ---- pathname ----

  /** Setting the same pathname twice is setting it once: the path is
      emptied before it is parsed, so the second call hands the prepared-path
      parser the same arguments as the first. */
  lemma PathnameIdempotent(s: UrlState, x: seq<char>, prepare: PathParser)
    ensures SetPathname(SetPathname(s, x, prepare).url, x, prepare) == SetPathname(s, x, prepare)
  {
  }

  /** A special URL whose new pathname is empty, or only tabs and newlines,
      gets the root path. */
  lemma SpecialEmptyPathnameIsRoot(s: UrlState, input: seq<char>, prepare: PathParser)
    requires s.scheme.IsSpecial() && !s.hasOpaquePath
    requires WithoutTabOrNewline(input) == []
    ensures SetPathname(s, input, prepare) == Outcome(s.(pathname := "/"), true)
  {
  }

  /** A non-special URL given an empty pathname gets `/` when it has no host
      and keeps the emptied path when it has one. */
  lemma NonSpecialEmptyPathname(s: UrlState, input: seq<char>, prepare: PathParser)
    requires !s.scheme.IsSpecial() && !s.hasOpaquePath
    requires WithoutTabOrNewline(input) == []
    ensures SetPathname(s, input, prepare) ==
              Outcome(s.(pathname := if s.HasHostname() then [] else "/"), true)
  {
  }

  /** For a special scheme a leading `\` is dropped just like a leading `/`. */
  lemma BackslashIsSlashWhenSpecial(s: UrlState, x: seq<char>, prepare: PathParser)
    requires s.scheme.IsSpecial()
    ensures ParsePath(s, ['\\'] + x, prepare) == ParsePath(s, ['/'] + x, prepare)
    ensures SetPathname(s, ['\\'] + x, prepare) == SetPathname(s, ['/'] + x, prepare)
  {
    var rest := WithoutTabOrNewline(x);
    WithoutTabOrNewlineKeepsLeading('\\', x);
    WithoutTabOrNewlineKeepsLeading('/', x);
    assert (['\\'] + rest)[1..] == rest;
    assert (['/'] + rest)[1..] == rest;
  }

  /** For a non-special scheme a leading `\` is part of the path: the whole
      sanitised input reaches the prepared-path parser. */
  lemma BackslashKeptWhenNotSpecial(s: UrlState, x: seq<char>, prepare: PathParser)
    requires !s.scheme.IsSpecial()
    ensures var parsed := prepare(['\\'] + WithoutTabOrNewline(x), s.scheme, s.pathname);
            ParsePath(s, ['\\'] + x, prepare) == Outcome(s.(pathname := parsed.path), parsed.ok)
  {
    WithoutTabOrNewlineKeepsLeading('\\', x);
  }

  // ---- port ----

  /** Tab and newline characters are not digits, so looking for a digit in
      the original input or in its sanitised copy gives the same answer. */
  lemma DigitSearchIgnoresTabOrNewline(input: seq<char>)
    ensures FindFirstDigit(input).None? <==> FindFirstDigit(WithoutTabOrNewline(input)).None?
  {
    var r := WithoutTabOrNewline(input);
    if FindFirstDigit(input).Some? {
      var i := FindFirstDigit(input).value;
      var c := input[i];
      assert c in multiset(input);
      WithoutTabOrNewlineKeepsOthers(input, c);
      assert c in multiset(r);
      var j :| 0 <= j < |r| && r[j] == c;
    }
    if FindFirstDigit(r).Some? {
      var j := FindFirstDigit(r).value;
      var c := r[j];
      assert c in multiset(r);
      WithoutTabOrNewlineKeepsOthers(input, c);
      assert c in multiset(input);
      var i :| 0 <= i < |input| && input[i] == c;
    }
  }

  /** Clearing the port: an input that is empty once sanitised. */
  lemma PortEmptyClears(s: UrlState, input: seq<char>, parsePort: PortParser)
    requires !s.CannotHaveCredentialsOrPort()
    requires WithoutTabOrNewline(input) == []
    ensures SetPort(s, input, parsePort) == Outcome(s.(port := None), true)
  {
  }

  /** A URL that cannot carry a port refuses every port. */
  lemma PortRefusedWithoutCapability(s: UrlState, input: seq<char>, parsePort: PortParser)
    requires s.CannotHaveCredentialsOrPort()
    ensures SetPort(s, input, parsePort) == Outcome(s, false)
  {
  }

  /** A sanitised input that starts with a C0 control or a space is refused,
      and so is one without any digit; neither changes anything. */
  lemma PortSyntaxRejections(s: UrlState, input: seq<char>, parsePort: PortParser)
    requires WithoutTabOrNewline(input) != []
    requires IsC0ControlOrSpace(WithoutTabOrNewline(input)[0]) ||
             forall i :: 0 <= i < |input| ==> !IsAsciiDigit(input[i])
    ensures SetPort(s, input, parsePort) == Outcome(s, false)
  {
  }

  /** A leading character that is not a digit does not change whether a
      digit is found. */
  lemma DigitSearchSkipsNonDigit(c: char, x: seq<char>)
    requires !IsAsciiDigit(c)
    ensures FindFirstDigit([c] + x).None? <==> FindFirstDigit(x).None?
  {
  }

  /** The control-character test looks at the sanitised copy: a leading
      tab is removed before the test, so `\t8` is treated as `8` rather than
      refused for starting with a control character. */
  lemma PortLeadingTabIsIgnored(s: UrlState, x: seq<char>, parsePort: PortParser)
    ensures SetPort(s, ['\t'] + x, parsePort) == SetPort(s, x, parsePort)
  {
    var input := ['\t'] + x;
    WithoutLeadingTabOrNewline('\t', x);
    DigitSearchSkipsNonDigit('\t', x);
    var trimmed := WithoutTabOrNewline(x);
    if !s.CannotHaveCredentialsOrPort() && trimmed != [] && !IsC0ControlOrSpace(trimmed[0]) {
      assert SetPort(s, input, parsePort).ok == SetPort(s, x, parsePort).ok;
    }
  }

  /** Rollback: when the port parser clears the validity flag, the setter
      fails and the record is as it was, with the flag set again. */
  lemma PortRollback(s: UrlState, input: seq<char>, parsePort: PortParser)
    requires !s.CannotHaveCredentialsOrPort()
    requires var trimmed := WithoutTabOrNewline(input);
             trimmed != [] && !IsC0ControlOrSpace(trimmed[0]) && FindFirstDigit(input).Some? &&
             !parsePort(trimmed, s.port).valid
    ensures SetPort(s, input, parsePort) == Outcome(s.(isValid := true), false)
  {
  }

  /** Commit: on a valid record, when the port parser keeps the record
      valid, the port it produced is kept and the setter succeeds. */
  lemma PortCommit(s: UrlState, input: seq<char>, parsePort: PortParser)
    requires s.isValid && !s.CannotHaveCredentialsOrPort()
    requires var trimmed := WithoutTabOrNewline(input);
             trimmed != [] && !IsC0ControlOrSpace(trimmed[0]) && FindFirstDigit(input).Some? &&
             parsePort(trimmed, s.port).valid
    ensures SetPort(s, input, parsePort) ==
              Outcome(s.(port := parsePort(WithoutTabOrNewline(input), s.port).port), true)
  {
  }

  /** Every setter keeps the between-calls invariant. */
  lemma SettersPreserveValid(s: UrlState, input: seq<char>, encode: Encoder,
                             prepare: PathParser, parsePort: PortParser)
    requires s.Valid()
    ensures SetHash(s, input, encode).Valid() && SetSearch(s, input, encode).Valid()
    ensures SetUsername(s, input, encode).url.Valid() && SetPassword(s, input, encode).url.Valid()
    ensures SetPathname(s, input, prepare).url.Valid() && SetPort(s, input, parsePort).url.Valid()
  {
  }
}
