/**
 * The navigation sidebar: menu items and their icons, the selected menu
 * entry, and the initials shown in the profile badge.
 *
 * The initials are computed as the sidebar does: the name is split on single
 * spaces (so two spaces in a row give an empty part), the first character of
 * every part is taken (an empty part contributes nothing), the result is
 * upper-cased and cut to its first two characters.
 */
module Sidebar {
  import opened Wrappers

  /** A menu icon: an asset path, or an icon component of the icon library. */
  datatype SidebarIcon = AssetIcon(path: string) | LucideIcon(name: string)

  datatype SidebarMenuItem = SidebarMenuItem(id: string, labelText: string, icon: SidebarIcon, route: Option<string>)

  datatype SidebarProfile = SidebarProfile(name: string, role: string, avatar: Option<string>)

  /** The profile shown when the shell binds none. */
  const DefaultProfile := SidebarProfile("John Doe", "Admin", Some("assets/icons/sidebar/avatar-default.svg"))

  /** The icon is rendered as a component exactly when it is not a path string. */
  function IsLucideIcon(icon: SidebarIcon): (r: bool)
    ensures r <==> !icon.AssetIcon?
  {
    !icon.AssetIcon?
  }

  /** The parts of `s` between single spaces, as string splitting on " " yields them. */
  function Split(s: string): (parts: seq<string>)
    ensures |parts| >= 1
    ensures forall i :: 0 <= i < |parts| ==> ' ' !in parts[i]
  {
    if s == [] then [""]
    else
      var rest := Split(s[1..]);
      if s[0] == ' ' then [""] + rest
      else [[s[0]] + rest[0]] + rest[1..]
  }

  /** The parts joined back with single spaces. */
  function JoinWithSpaces(parts: seq<string>): string
    requires |parts| >= 1
  {
    if |parts| == 1 then parts[0] else parts[0] + " " + JoinWithSpaces(parts[1..])
  }

  /** Splitting loses nothing: joining the parts with spaces gives the name back. */
  lemma {:induction false} SplitJoinRoundTrip(s: string)
    ensures JoinWithSpaces(Split(s)) == s
  {
    if s != [] {
      var rest := Split(s[1..]);
      SplitJoinRoundTrip(s[1..]);
      if s[0] == ' ' {
        assert ([""] + rest)[1..] == rest;
        assert s == [' '] + s[1..];
      } else {
        var parts := [[s[0]] + rest[0]] + rest[1..];
        if |rest| > 1 {
          assert parts[1..] == rest[1..];
          assert JoinWithSpaces(rest) == rest[0] + " " + JoinWithSpaces(rest[1..]);
        }
        assert s == [s[0]] + s[1..];
      }
    }
  }

  /** The first character of every non-empty part, in order. */
  function FirstChars(parts: seq<string>): (r: string)
    ensures |r| <= |parts|
  {
    if parts == [] then []
    else (if parts[0] == [] then [] else [parts[0][0]]) + FirstChars(parts[1..])
  }

  /** Upper-casing of one character, for the ASCII letters. */
  function UpperChar(c: char): (u: char)
    ensures 'a' <= c <= 'z' ==> 'A' <= u <= 'Z' && u as int == c as int - 32
    ensures !('a' <= c <= 'z') ==> u == c
  {
    if 'a' <= c <= 'z' then (c as int - 32) as char else c
  }

  function UpperString(s: string): (u: string)
    ensures |u| == |s|
    ensures forall i :: 0 <= i < |s| ==> u[i] == UpperChar(s[i])
  {
    seq(|s|, i requires 0 <= i < |s| => UpperChar(s[i]))
  }

  /** The first two characters, or all of them when there are fewer. */
  function TakeTwo(s: string): (r: string)
    ensures |r| == if |s| < 2 then |s| else 2
    ensures r <= s
  {
    if |s| < 2 then s else s[..2]
  }

  /**
   * The characters of `s` that begin a word: every non-space character at
   * the start or right after a space.  `atStart` says whether the character
   * before `s` was a space (or there was none).
   */
  function WordStarts(s: string, atStart: bool): string {
    if s == [] then []
    else if s[0] == ' ' then WordStarts(s[1..], true)
    else (if atStart then [s[0]] else []) + WordStarts(s[1..], false)
  }

  lemma FirstCharsCons(p: string, rest: seq<string>)
    ensures FirstChars([p] + rest) == (if p == [] then [] else [p[0]]) + FirstChars(rest)
  {
    assert ([p] + rest)[1..] == rest;
  }

  /**
   * Taking the first character of each split part picks exactly the word
   * starts; in the middle of a word the rest of that word is the first part,
   * and it is skipped.
   */
  lemma {:induction false} FirstCharsAreWordStarts(s: string, atStart: bool)
    ensures WordStarts(s, atStart) == if atStart then FirstChars(Split(s)) else FirstChars(Split(s)[1..])
  {
    if s != [] {
      var rest := Split(s[1..]);
      if s[0] == ' ' {
        FirstCharsAreWordStarts(s[1..], true);
        FirstCharsCons("", rest);
        assert ([""] + rest)[1..] == rest;
      } else {
        FirstCharsAreWordStarts(s[1..], false);
        var parts := [[s[0]] + rest[0]] + rest[1..];
        FirstCharsCons([s[0]] + rest[0], rest[1..]);
        assert parts[1..] == rest[1..];
      }
    }
  }

  /** The initials of the profile's name; empty when there is no profile or the name is empty. */
  function UserInitials(profile: Option<SidebarProfile>): (r: string)
    ensures |r| <= 2
    ensures profile.None? || profile.value.name == [] ==> r == []
    ensures profile.Some? && profile.value.name != [] ==>
              r == TakeTwo(UpperString(FirstChars(Split(profile.value.name))))
  {
    if profile.None? || profile.value.name == [] then []
    else TakeTwo(UpperString(FirstChars(Split(profile.value.name))))
  }

  /** The initials are the upper-cased first two word starts of the name. */
  lemma UserInitialsAreWordStarts(profile: SidebarProfile)
    ensures UserInitials(Some(profile)) == TakeTwo(UpperString(WordStarts(profile.name, true)))
  {
    FirstCharsAreWordStarts(profile.name, true);
  }

  /** The initials hold only upper-cased word starts, in order. */
  lemma UserInitialsChars(profile: SidebarProfile, i: nat)
    requires i < |UserInitials(Some(profile))|
    ensures i < |WordStarts(profile.name, true)|
    ensures UserInitials(Some(profile))[i] == UpperChar(WordStarts(profile.name, true)[i])
  {
    UserInitialsAreWordStarts(profile);
  }

  lemma DefaultNameWordStarts()
    ensures WordStarts(DefaultProfile.name, true) == "JD"
  {
    assert WordStarts("oe", false) == [];
    assert WordStarts("Doe", true) == "D";
    assert WordStarts(" Doe", false) == "D";
    assert WordStarts("ohn Doe", false) == "D";
  }

  /** The default profile's initials. */
  lemma DefaultProfileInitials()
    ensures UserInitials(Some(DefaultProfile)) == "JD"
  {
    UserInitialsAreWordStarts(DefaultProfile);
    DefaultNameWordStarts();
    var u := UpperString("JD");
    assert u[0] == 'J' && u[1] == 'D';
    assert u == "JD";
  }

  /** The sidebar's own state: the selected menu entry and the bound profile. */
  class SidebarView {
    var selectedMenuItemId: string
    var profile: Option<SidebarProfile>

    constructor ()
      ensures selectedMenuItemId == "vulnerabilities"
      ensures profile == Some(DefaultProfile)
    {
      selectedMenuItemId := "vulnerabilities";
      profile := Some(DefaultProfile);
    }

    function IsMenuItemSelected(menuItemId: string): (r: bool)
      reads this
      ensures r <==> menuItemId == selectedMenuItemId
    {
      selectedMenuItemId == menuItemId
    }

    /** Selects the clicked entry and hands it on to the shell. */
    method OnMenuItemClick(menuItem: SidebarMenuItem) returns (emitted: SidebarMenuItem)
      modifies this
      ensures emitted == menuItem
      ensures selectedMenuItemId == menuItem.id
      ensures profile == old(profile)
      ensures forall id :: IsMenuItemSelected(id) <==> id == menuItem.id
    {
      selectedMenuItemId := menuItem.id;
      emitted := menuItem;
    }

    function GetUserInitials(): (r: string)
      reads this
      ensures |r| <= 2
      ensures r == UserInitials(profile)
    {
      UserInitials(profile)
    }
  }
}
