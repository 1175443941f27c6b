/** String helpers the setters call: removing tab and newline characters and
    trimming the trailing spaces of an opaque path. */
module Helpers {
  import opened Unicode

  /** `s` with every ASCII tab and newline taken out, the other characters
      kept in their order (defined from the end so that a left-to-right scan
      extends it one character at a time). */
  function WithoutTabOrNewline(s: seq<char>): (r: seq<char>)
    ensures |r| <= |s|
    ensures forall i :: 0 <= i < |r| ==> !IsAsciiTabOrNewline(r[i])
    ensures !HasTabsOrNewline(s) ==> r == s
  {
    if s == [] then []
    else
      var init, last := s[..|s| - 1], s[|s| - 1];
      assert s == init + [last];
      assert !HasTabsOrNewline(s) ==> !HasTabsOrNewline(init) by {
        if HasTabsOrNewline(init) {
          var i :| 0 <= i < |init| && IsAsciiTabOrNewline(init[i]);
          assert s[i] == init[i];
        }
      }
      if IsAsciiTabOrNewline(last) then WithoutTabOrNewline(init)
      else WithoutTabOrNewline(init) + [last]
  }

  /** Every character other than a tab or newline occurs as often after
      the removal as before it. */
  lemma {:induction false} WithoutTabOrNewlineKeepsOthers(s: seq<char>, c: char)
    requires !IsAsciiTabOrNewline(c)
    ensures multiset(WithoutTabOrNewline(s))[c] == multiset(s)[c]
  {
    if s != [] {
      var init, last := s[..|s| - 1], s[|s| - 1];
      assert s == init + [last];
      WithoutTabOrNewlineKeepsOthers(init, c);
    }
  }

  /** The in-place removal of tab and newline characters, as a scan that
      keeps every other character. */
  method RemoveAsciiTabOrNewline(s: seq<char>) returns (r: seq<char>)
    ensures r == WithoutTabOrNewline(s)
  {
    r := [];
    var i := 0;
    while i < |s|
      invariant 0 <= i <= |s|
      invariant r == WithoutTabOrNewline(s[..i])
    {
      assert s[..i + 1][..i] == s[..i];
      if !IsAsciiTabOrNewline(s[i]) {
        r := r + [s[i]];
      }
      i := i + 1;
    }
    assert s[..i] == s;
  }

  /** Removing tab and newline characters distributes over concatenation. */
  lemma {:induction false} WithoutTabOrNewlineAppend(a: seq<char>, b: seq<char>)
    ensures WithoutTabOrNewline(a + b) == WithoutTabOrNewline(a) + WithoutTabOrNewline(b)
  {
    if b == [] {
      assert a + b == a;
    } else {
      var init := b[..|b| - 1];
      assert (a + b)[..|a + b| - 1] == a + init;
      assert b[..|b| - 1] == init;
      WithoutTabOrNewlineAppend(a, init);
    }
  }

  /** A leading tab or newline is removed. */
  lemma WithoutLeadingTabOrNewline(c: char, x: seq<char>)
    requires IsAsciiTabOrNewline(c)
    ensures WithoutTabOrNewline([c] + x) == WithoutTabOrNewline(x)
  {
    WithoutTabOrNewlineAppend([c], x);
    assert [c][..0] == [];
  }

  /** Any other leading character is kept. */
  lemma WithoutTabOrNewlineKeepsLeading(c: char, x: seq<char>)
    requires !IsAsciiTabOrNewline(c)
    ensures WithoutTabOrNewline([c] + x) == [c] + WithoutTabOrNewline(x)
  {
    WithoutTabOrNewlineAppend([c], x);
    assert [c][..0] == [];
  }

  /** `p` without its trailing U+0020 SPACE characters. */
  function TrimTrailingSpaces(p: seq<char>): (r: seq<char>)
    ensures |r| <= |p| && r == p[..|r|]
    ensures r == [] || r[|r| - 1] != ' '
    ensures forall i :: |r| <= i < |p| ==> p[i] == ' '
  {
    if p == [] || p[|p| - 1] != ' ' then p
    else TrimTrailingSpaces(p[..|p| - 1])
  }
}
