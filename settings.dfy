/**
 * The settings page: the three notification switches, the initials shown in
 * a team member's avatar, and the role-dependent badge and Remove button.
 * The initials expression is the same on the dashboard and analytics pages;
 * it is modelled once, here.
 */
module Settings {

  /** Which notification channels are switched on. */
  datatype Notifications = Notifications(email: bool, push: bool, whatsapp: bool)

  const InitialNotifications := Notifications(true, false, true)

  /** The page's notification state; each switch replaces one field and keeps the others. */
  class SettingsPage {
    var notifications: Notifications

    constructor ()
      ensures notifications == InitialNotifications
    {
      notifications := InitialNotifications;
    }

    method SetEmail(checked: bool)
      modifies this
      ensures notifications.email == checked
      ensures notifications.push == old(notifications.push) && notifications.whatsapp == old(notifications.whatsapp)
    {
      notifications := notifications.(email := checked);
    }

    method SetPush(checked: bool)
      modifies this
      ensures notifications.push == checked
      ensures notifications.email == old(notifications.email) && notifications.whatsapp == old(notifications.whatsapp)
    {
      notifications := notifications.(push := checked);
    }

    method SetWhatsapp(checked: bool)
      modifies this
      ensures notifications.whatsapp == checked
      ensures notifications.email == old(notifications.email) && notifications.push == old(notifications.push)
    {
      notifications := notifications.(whatsapp := checked);
    }
  }

  /** `name.split(' ')`: the pieces between single spaces; an empty string gives one empty piece. */
  function Split(s: string): (r: seq<string>)
    ensures |r| >= 1
    ensures forall i :: 0 <= i < |r| ==> ' ' !in r[i]
  {
    if s == [] then [""]
    else
      var rest := Split(s[1..]);
      if s[0] == ' ' then [""] + rest
      else [[s[0]] + rest[0]] + rest[1..]
  }

  /** `pieces.join(' ')`: the partner of `Split`. */
  function JoinWithSpaces(pieces: seq<string>): string
    requires |pieces| >= 1
  {
    if |pieces| == 1 then pieces[0] else pieces[0] + " " + JoinWithSpaces(pieces[1..])
  }

  /** Splitting at spaces loses nothing: joining the pieces with spaces gives the name back. */
  lemma {:induction false} SplitJoinRoundTrip(s: string)
    ensures JoinWithSpaces(Split(s)) == s
  {
    if s != [] {
      var rest := Split(s[1..]);
      SplitJoinRoundTrip(s[1..]);
      if s[0] != ' ' && |rest| > 1 {
        assert Split(s)[1..] == rest[1..];
        assert JoinWithSpaces(Split(s)) == [s[0]] + rest[0] + " " + JoinWithSpaces(rest[1..]);
      }
    }
  }

  /** `n[0]` joined as text: the first character, or nothing for an empty piece. */
  function FirstChar(piece: string): string
  {
    if piece == [] then [] else [piece[0]]
  }

  /** `.map(n => n[0]).join('')`: at most one character per piece, each taken from its piece. */
  function JoinFirstChars(pieces: seq<string>): (r: string)
    ensures |r| <= |pieces|
    ensures (forall i :: 0 <= i < |pieces| ==> ' ' !in pieces[i]) ==> ' ' !in r
  {
    if pieces == [] then [] else FirstChar(pieces[0]) + JoinFirstChars(pieces[1..])
  }

  /** The avatar initials: the first character of each space-separated piece, so never a space and at most one per piece. */
  function Initials(name: string): (r: string)
    ensures |r| <= |Split(name)|
    ensures ' ' !in r
  {
    JoinFirstChars(Split(name))
  }

  /**
   * A reference definition that reads the name once, left to right: a
   * character is an initial when it is not a space and starts the name or
   * follows a space.
   */
  function WordStarts(s: string, afterSpace: bool): string
  {
    if s == [] then []
    else (if afterSpace && s[0] != ' ' then [s[0]] else []) + WordStarts(s[1..], s[0] == ' ')
  }

  /** The first piece contributes the name's first character, unless that is a space; the others give the later word starts. */
  lemma {:induction false} SplitWordStarts(s: string)
    ensures FirstChar(Split(s)[0]) == (if s != [] && s[0] != ' ' then [s[0]] else [])
    ensures JoinFirstChars(Split(s)[1..]) == WordStarts(s, false)
    ensures JoinFirstChars(Split(s)) == WordStarts(s, true)
  {
    if s != [] {
      SplitWordStarts(s[1..]);
      if s[0] != ' ' {
        assert Split(s)[1..] == Split(s[1..])[1..];
      }
    }
  }

  /** The initials are exactly the word starts: one per non-empty piece, never a space. */
  lemma InitialsAreWordStarts(name: string)
    ensures Initials(name) == WordStarts(name, true)
    ensures ' ' !in Initials(name)
  {
    SplitWordStarts(name);
    WordStartsHaveNoSpace(name, true);
  }

  lemma {:induction false} WordStartsHaveNoSpace(s: string, afterSpace: bool)
    ensures ' ' !in WordStarts(s, afterSpace)
  {
    if s != [] {
      WordStartsHaveNoSpace(s[1..], s[0] == ' ');
    }
  }

  /** Reading on past a space starts a new word, whatever came before it. */
  lemma {:induction false} WordStartsAcrossSpace(a: string, b: string, afterSpace: bool)
    ensures WordStarts(a + " " + b, afterSpace) == WordStarts(a, afterSpace) + WordStarts(b, true)
  {
    if a == [] {
      assert ("" + " " + b)[1..] == b;
    } else {
      assert (a + " " + b)[1..] == a[1..] + " " + b;
      WordStartsAcrossSpace(a[1..], b, a[0] == ' ');
    }
  }

  /** The initials of two parts joined by a space are the initials of each part, in order. */
  lemma InitialsAcrossSpace(a: string, b: string)
    ensures Initials(a + " " + b) == Initials(a) + Initials(b)
  {
    InitialsAreWordStarts(a + " " + b);
    InitialsAreWordStarts(a);
    InitialsAreWordStarts(b);
    WordStartsAcrossSpace(a, b, true);
  }

  /** A single word gives its first character. */
  lemma {:induction false} InitialOfWord(w: string)
    requires w != [] && ' ' !in w
    ensures Initials(w) == [w[0]]
  {
    InitialsAreWordStarts(w);
    WordStartsWithinWord(w[1..]);
  }

  lemma {:induction false} WordStartsWithinWord(w: string)
    requires ' ' !in w
    ensures WordStarts(w, false) == []
  {
    if w != [] {
      WordStartsWithinWord(w[1..]);
    }
  }

  /** A two-word name gives two initials, one per word. */
  lemma TwoWordInitials(first: string, last: string)
    requires first != [] && ' ' !in first
    requires last != [] && ' ' !in last
    ensures Initials(first + " " + last) == [first[0], last[0]]
  {
    InitialsAcrossSpace(first, last);
    InitialOfWord(first);
    InitialOfWord(last);
    assert [first[0]] + [last[0]] == [first[0], last[0]];
  }

  /** A doubled space makes an empty piece, which adds nothing. */
  lemma DoubledSpaceInitials(first: string, last: string)
    requires first != [] && ' ' !in first
    requires last != [] && ' ' !in last
    ensures Initials(first + "  " + last) == [first[0], last[0]]
  {
    assert first + "  " + last == first + " " + (" " + last);
    assert "" + " " + last == " " + last;
    InitialsAcrossSpace(first, " " + last);
    InitialsAcrossSpace("", last);
    InitialsAreWordStarts("");
    InitialOfWord(first);
    InitialOfWord(last);
    assert [first[0]] + [last[0]] == [first[0], last[0]];
  }

  datatype BadgeVariant = DefaultBadge | SecondaryBadge

  function RoleBadge(role: string): (r: BadgeVariant)
    ensures r == DefaultBadge <==> role == "Admin"
  {
    if role == "Admin" then DefaultBadge else SecondaryBadge
  }

  function ShowsRemoveButton(role: string): (r: bool)
    ensures r <==> role != "Admin"
  {
    role != "Admin"
  }

  /** Exactly the members without the default badge can be removed. */
  lemma RemovableIffSecondary(role: string)
    ensures ShowsRemoveButton(role) <==> RoleBadge(role) == SecondaryBadge
  {
  }
}
