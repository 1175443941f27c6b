# ada URL component setters, modelled in Dafny

This project models the component setters of `ada::url_base`, the base of
the URL object in the ada URL library: the fragment (`set_hash`), pathname
(`set_pathname`), username, password, query (`set_search`) and port
(`set_port`) setters, and the internal path parser `parse_path` that the
pathname setter delegates to. They are the setters of the URL class of the
WHATWG URL Standard (section 6.1, "URL class"). Each setter checks whether
the URL may take the component. It then removes ASCII tab and newline
characters from the input, percent-encodes the result where needed, and
either commits it or rejects it. The port setter saves the old port and
puts it back when the port parser reports failure.

Layout:

- `optional.dfy` (module `Optional`): the `Option` type used for absent components.
- `unicode.dfy` (module `Unicode`): the character classes the setters test: tab or newline, C0 control or space, ASCII digit. It also holds the first-digit search.
- `helpers.dfy` (module `Helpers`): removing tab and newline characters, as a specification function and as the scanning method the setters call. It also holds trimming the trailing spaces of an opaque path.
- `url_spec.dfy` (module `UrlSpec`): the URL record as a value (`UrlState`), the collaborator types, and each setter as a function from the record before the call to the record after it and the returned boolean (`Outcome`).
- `url_base.dfy` (module `UrlBase`): the mutable URL object, class `Url`. Its fields are updated in place by the setter methods. Each method's postcondition ties the new fields and the result to the matching `UrlSpec` function of the old fields.
- `setter_laws.dfy` (module `SetterLaws`): lemmas that relate several calls.

The collaborators that live outside `src/url_base.cpp` are parameters of the setters:

- the percent-encoder is a total function `Encoder` of a string and an `EncodeSet` (fragment, userinfo, query, special-query);
- the prepared-path parser is a total function `PathParser` of the prepared input, the scheme kind and the current path, returning success and the new path;
- the port parser is a total function `PortParser` of the sanitised input and the current port, returning the new port field and whether it keeps the record valid. The model lets it rewrite the port and clear the validity flag, never set it.

The capability predicates follow the WHATWG URL Standard's definitions over the record's fields:

- a URL cannot have credentials or a port when its host is absent or empty, or its scheme is `file`;
- the hostname "has a value" when a host is present;
- a scheme is special unless its kind is `NotSpecial`.

The port setter is modelled as the code tests, not as its comment reads. The comment at `src/url_base.cpp:60` speaks of the input not starting with control characters, but the test on line 61 looks at the sanitised copy `trimmed`. Only the digit test on line 63 looks at the original input. So an input such as a tab followed by `8` is accepted like `8` (`PortLeadingTabIsIgnored`). Tab and newline are not digits, so testing the original or the sanitised copy for a digit gives the same answer (`DigitSearchIgnoresTabOrNewline`).

`parse_path` removes tab and newline characters only when the input holds one (line 78). The method `UrlBase.Url.ParsePath` keeps that branch. Its postcondition shows the effect is the same as always removing them.

## Model

| member | source | states |
|---|---|---|
| `Unicode.FindFirstDigit` | src/url_base.cpp:63 | None exactly when no character of the input is an ASCII digit; otherwise the position of a digit with no digit before it |
| `Helpers.WithoutTabOrNewline` | src/url_base.cpp:57-58 | the result is no longer than the input, holds no tab or newline, and equals the input when the input has none |
| `Helpers.WithoutTabOrNewlineKeepsOthers` | src/url_base.cpp:57-58 | every character other than tab or newline occurs as often after the removal as before it |
| `Helpers.RemoveAsciiTabOrNewline` | src/url_base.cpp:15 | the left-to-right removal scan computes exactly `WithoutTabOrNewline` of its input |
| `Helpers.WithoutTabOrNewlineAppend` | src/url_base.cpp:15 | helper lemma about the tab/newline filter called at lines 15, 46, 58 and 82: it distributes over concatenation |
| `Helpers.WithoutLeadingTabOrNewline` | src/url_base.cpp:58 | helper lemma about the same filter: a leading tab or newline is removed and the rest filtered |
| `Helpers.WithoutTabOrNewlineKeepsLeading` | src/url_base.cpp:82 | helper lemma about the same filter: any other leading character is kept in front of the filtered rest |
| `Helpers.TrimTrailingSpaces` | src/url_base.cpp:9 | the result is a prefix of the path that does not end in a space, and everything cut off is spaces |
| `UrlSpec.StripTrailingSpacesFromOpaquePath` | src/url_base.cpp:9 | only the path can change, and only when the path is opaque and no fragment or query is present; then it loses its trailing spaces |
| `UrlSpec.SetHash` | src/url_base.cpp:6-17 | only the fragment and path can change; the fragment is absent exactly when the input is empty; the path changes only for empty input on an opaque path |
| `UrlSpec.SetPathname` | src/url_base.cpp:19-23 | only the path can change; on an opaque path the call fails and changes nothing; otherwise, for an input not empty after sanitising, the prepared-path parser gets the emptied path and the rest of the input after its leading separator, and its path and result are what the setter leaves and returns |
| `UrlSpec.SetUsername` | src/url_base.cpp:25-29 | succeeds exactly when the URL may have credentials; on failure nothing changes; on success only the username changes, to the userinfo encoding of the input |
| `UrlSpec.SetPassword` | src/url_base.cpp:31-35 | succeeds exactly when the URL may have credentials; on failure nothing changes; on success only the password changes, to the userinfo encoding of the input |
| `UrlSpec.SetSearch` | src/url_base.cpp:37-53 | only the query and path can change; the query is absent exactly when the input is empty; the path changes only for empty input on an opaque path |
| `UrlSpec.SetPort` | src/url_base.cpp:55-72 | only the port and validity flag can change; on failure the port is as before; a valid record stays valid; success needs a URL that may have a port |
| `UrlSpec.SegmentInput` | src/url_base.cpp:92-101 | one leading character is dropped exactly when it is `/`, or `\` on a special scheme |
| `UrlSpec.ParsePath` | src/url_base.cpp:74-109 | only the path can change; an input empty after sanitising always succeeds, giving `/` on special schemes and host-less URLs and leaving a non-special URL with a host as it was; otherwise result and path are exactly the prepared-path parser's on the input without its leading separator |
| `UrlBase.Url.StripTrailingSpacesFromOpaquePath` | src/url_base.cpp:9 | the trimming loop leaves the object as `UrlSpec.StripTrailingSpacesFromOpaquePath` says |
| `UrlBase.Url.SetHash` | src/url_base.cpp:6-17 | new fields equal `UrlSpec.SetHash` of the old; empty input clears the fragment; the object invariant is kept |
| `UrlBase.Url.SetPathname` | src/url_base.cpp:19-23 | fields and result equal `UrlSpec.SetPathname` of the old fields; on an opaque path it fails with nothing changed |
| `UrlBase.Url.SetUsername` | src/url_base.cpp:25-29 | fields and result equal `UrlSpec.SetUsername`; failure changes nothing |
| `UrlBase.Url.SetPassword` | src/url_base.cpp:31-35 | fields and result equal `UrlSpec.SetPassword`; failure changes nothing |
| `UrlBase.Url.SetSearch` | src/url_base.cpp:37-53 | new fields equal `UrlSpec.SetSearch` of the old; empty input clears the query; the object invariant is kept |
| `UrlBase.Url.SetPort` | src/url_base.cpp:55-72 | fields and result equal `UrlSpec.SetPort`; on failure the port is the one saved before the call; validity on entry implies validity on exit |
| `UrlBase.Url.ParsePath` | src/url_base.cpp:74-109 | with the copy-only-when-needed branch, fields and result equal `UrlSpec.ParsePath`, which always sanitises |
| `SetterLaws.HashDropsOneLeadingHash` | src/url_base.cpp:13-16 | for any rest, `#` followed by it stores the encoded, sanitised rest and changes nothing else |
| `SetterLaws.HashWithOrWithoutHash` | src/url_base.cpp:14 | `#x` and `x` store the same fragment when `x` does not start with `#` |
| `SetterLaws.HashLeadingTabKeepsRest` | src/url_base.cpp:14-15 | an input starting with a tab stores its whole sanitised rest, a leading `#` of the rest included |
| `SetterLaws.HashAfterTabIsKept` | src/url_base.cpp:14-15 | tab, `#`, `x` stores `#x` where `#x` stores `x`: the `#` test precedes the removal of tabs |
| `SetterLaws.HashClearTrimsOnlyOpaquePath` | src/url_base.cpp:7-10 | empty input clears the fragment and trims the path only when it is opaque and no query is present |
| `SetterLaws.HashIdempotent` | src/url_base.cpp:6-17 | setting the same fragment twice equals setting it once |
| `SetterLaws.SearchDropsOneLeadingQuestionMark` | src/url_base.cpp:44-52 | `?` followed by any rest stores the rest sanitised and encoded with the set the scheme kind selects |
| `SetterLaws.SearchWithOrWithoutQuestionMark` | src/url_base.cpp:45 | `?x` and `x` store the same query when `x` does not start with `?` |
| `SetterLaws.SearchEncodeSetBySchemeKind` | src/url_base.cpp:48-50 | every special scheme encodes the query with the special-query set, every non-special one with the query set |
| `SetterLaws.SearchClearTrimsOnlyOpaquePath` | src/url_base.cpp:38-41 | empty input clears the query and trims the path only when it is opaque and no fragment is present |
| `SetterLaws.SearchIdempotent` | src/url_base.cpp:37-53 | setting the same query twice equals setting it once |
| `SetterLaws.CredentialsCommute` | src/url_base.cpp:25-35 | setting username then password equals the other order, and the password result does not depend on the username call |
| `SetterLaws.UsernameIdempotent` | src/url_base.cpp:25-29 | setting the same username twice equals setting it once |
| `SetterLaws.PasswordIdempotent` | src/url_base.cpp:31-35 | setting the same password twice equals setting it once |
| `SetterLaws.OpaquePathRefusesCredentialsAndPort` | src/url_base.cpp:26-56 | under the between-calls invariant, a URL with an opaque path refuses username, password and port (the capability tests on lines 26, 32 and 56), changing nothing |
| `SetterLaws.PathnameIdempotent` | src/url_base.cpp:19-23 | setting the same pathname twice equals setting it once, for every prepared-path parser, because the path is emptied first |
| `SetterLaws.SpecialEmptyPathnameIsRoot` | src/url_base.cpp:89-91 | a special URL given an empty (after sanitising) pathname gets `/` and success |
| `SetterLaws.NonSpecialEmptyPathname` | src/url_base.cpp:103-106 | a non-special URL given an empty pathname gets `/` without a host, the emptied path with one, and success |
| `SetterLaws.BackslashIsSlashWhenSpecial` | src/url_base.cpp:92-93 | on a special scheme, a leading `\` gives the same path and result as a leading `/` |
| `SetterLaws.BackslashKeptWhenNotSpecial` | src/url_base.cpp:98-101 | on a non-special scheme, a leading `\` is handed on to the prepared-path parser |
| `SetterLaws.DigitSearchIgnoresTabOrNewline` | src/url_base.cpp:58-63 | a digit is found in the original input exactly when one is found in its sanitised copy |
| `SetterLaws.PortEmptyClears` | src/url_base.cpp:59 | an input empty after sanitising clears the port and succeeds |
| `SetterLaws.PortRefusedWithoutCapability` | src/url_base.cpp:56 | a URL that cannot have a port refuses every input and changes nothing |
| `SetterLaws.PortSyntaxRejections` | src/url_base.cpp:60-63 | a sanitised input starting with a C0 control or space, or an input without a digit, is refused with nothing changed |
| `SetterLaws.DigitSearchSkipsNonDigit` | src/url_base.cpp:63 | a leading non-digit does not change whether a digit is found |
| `SetterLaws.PortLeadingTabIsIgnored` | src/url_base.cpp:57-63 | a tab in front of any input gives the same outcome as the input alone |
| `SetterLaws.PortRollback` | src/url_base.cpp:65-71 | when the port parser reports invalid, the setter fails with every field as before and the validity flag set |
| `SetterLaws.PortCommit` | src/url_base.cpp:66-68 | on a valid record, when the port parser keeps it valid, its port is kept and the setter succeeds |
| `SetterLaws.SettersPreserveValid` | src/url_base.cpp:6-72 | every setter keeps the between-calls invariant: validity flag set, an opaque path only on a host-less non-special URL, and no username, password or port on a URL that cannot have them |

## Left out

- Percent-encoding: the algorithm and its character-set tables are defined outside `src/url_base.cpp`. The encoder is a parameter: a total, deterministic function of the string and the encode set.
- `helpers::parse_prepared_path`, with its `.` and `..` segments and drive letters, is not part of this model. It is a `PathParser` parameter. So the lemmas about `\` and `/` cover only what `parse_path` itself does: which character it drops before handing on the rest.
- `url::parse_port` is not part of this model: its numeric parsing and range rules are left out. It is a `PortParser` parameter that may change the port and may clear the validity flag.
- `helpers::strip_trailing_spaces_from_opaque_path`: its source file is not part of this model, so it is modelled concretely as the WHATWG URL Standard defines "potentially strip trailing spaces from an opaque path". Nothing happens unless the path is opaque and neither a fragment nor a query is present; then trailing U+0020 spaces are removed. This says more than "no change unless the path is opaque".
- The `update_base_*` member functions are virtual, with one implementation per URL representation. They are modelled as direct writes to the record's fields. The offset-based buffer representation of `url_aggregator` is not modelled.
- How `is_special()`, `cannot_have_credentials_or_port()` and `base_hostname_has_value()` are computed is not part of `src/url_base.cpp`. They are predicates over a scheme kind and an optional host, following the WHATWG definitions.
- `ada_log` (line 75) only logs and is left out.
- Strings are sequences of Dafny `char`, not of bytes. Every test this core makes compares against an ASCII character, and a non-ASCII byte and a non-ASCII code point both lie above U+0020 and outside the digits. So the choice does not change any branch.
- The `std::string_view`/`std::string` ownership distinctions are not modelled. The in-place edit of a local string is modelled as a method that returns the edited value.
- Idempotence is not stated for the port setter. A second call hands the port parser the port the first call produced, so the outcome depends on what the port parser does.
