/** Character classes the setters test their input against. */
module Unicode {
  import opened Optional

  /** ASCII tab or newline: the characters a URL setter removes from its input. */
  predicate IsAsciiTabOrNewline(c: char)
  {
    c == '\t' || c == '\n' || c == '\r'
  }

  /** True when `s` holds at least one ASCII tab or newline. */
  predicate HasTabsOrNewline(s: seq<char>)
  {
    exists i :: 0 <= i < |s| && IsAsciiTabOrNewline(s[i])
  }

  /** A C0 control (U+0000 to U+001F) or the space U+0020. */
  predicate IsC0ControlOrSpace(c: char)
  {
    c <= ' '
  }

  predicate IsAsciiDigit(c: char)
  {
    '0' <= c <= '9'
  }

  /** The position of the first ASCII digit of `s`, or None when there is
      none (the search that reports "not found" as a sentinel position). */
  function FindFirstDigit(s: seq<char>): (r: Option<nat>)
    ensures r.None? <==> forall i :: 0 <= i < |s| ==> !IsAsciiDigit(s[i])
    ensures r.Some? ==> r.value < |s| && IsAsciiDigit(s[r.value])
    ensures r.Some? ==> forall j :: 0 <= j < r.value ==> !IsAsciiDigit(s[j])
  {
    if s == [] then None
    else if IsAsciiDigit(s[0]) then Some(0)
    else
      match FindFirstDigit(s[1..])
      case None =>
        assert forall i :: 1 <= i < |s| ==> s[i] == s[1..][i - 1];
        None
      case Some(k) =>
        assert forall j :: 1 <= j < k + 1 ==> s[j] == s[1..][j - 1];
        Some(k + 1)
  }
}
