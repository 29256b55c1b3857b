/**
 * The dashboard header: which of its parts appear, the notification bell with
 * its unread counter, and the initials the user menu shows when there is no
 * avatar image. The notification list is the fixed sample the component
 * holds; `n[0]` is taken per character.
 */
module Header {
  import opened Wrappers
  import Text

  datatype Notification = Notification(id: string, title: string, description: string, time: string, read: bool)

  /** The sample notifications the bell shows. */
  const SampleNotifications: seq<Notification> := [
    Notification("1", "New order received", "Order #1234 from John Doe", "2 minutes ago", false),
    Notification("2", "Product approved", "Your product \"Template A\" has been approved", "1 hour ago", false),
    Notification("3", "Payment received", "NPR 1,500 deposited to your account", "3 hours ago", true)]

  /** `notifications.filter(n => !n.read).length` */
  function UnreadCount(ns: seq<Notification>): (r: nat)
    ensures r <= |ns|
    decreases |ns|
  {
    if |ns| == 0 then 0 else (if ns[0].read then 0 else 1) + UnreadCount(ns[1..])
  }

  /** No unread notifications exactly when every one of them is read. */
  lemma {:induction false} NoUnreadIffAllRead(ns: seq<Notification>)
    ensures UnreadCount(ns) == 0 <==> forall k :: 0 <= k < |ns| ==> ns[k].read
    decreases |ns|
  {
    if |ns| > 0 {
      NoUnreadIffAllRead(ns[1..]);
      assert forall k :: 1 <= k < |ns| ==> ns[k] == ns[1..][k - 1];
    }
  }

  /** All unread exactly when the count is the length. */
  lemma {:induction false} AllUnreadIffFullCount(ns: seq<Notification>)
    ensures UnreadCount(ns) == |ns| <==> forall k :: 0 <= k < |ns| ==> !ns[k].read
    decreases |ns|
  {
    if |ns| > 0 {
      AllUnreadIffFullCount(ns[1..]);
      assert forall k :: 1 <= k < |ns| ==> ns[k] == ns[1..][k - 1];
    }
  }

  /** The bell and its drop-down. */
  datatype Bell = Bell(
    counterBadge: Option<nat>,     // the red number on the bell
    newBadge: Option<nat>,         // "{n} new" beside the title
    rows: seq<(string, bool)>,     // each row's title and its unread dot
    emptyMessage: bool,            // "No notifications"
    viewAll: bool)                 // "View all notifications"

  function RenderBell(ns: seq<Notification>): (r: Bell)
    ensures r.counterBadge.Some? <==> UnreadCount(ns) > 0
    ensures r.counterBadge.Some? ==> r.counterBadge.value == UnreadCount(ns)
    ensures r.newBadge == r.counterBadge
    ensures r.emptyMessage <==> |ns| == 0
    ensures r.viewAll <==> !r.emptyMessage
    ensures |r.rows| == |ns| && forall k :: 0 <= k < |ns| ==> r.rows[k] == (ns[k].title, !ns[k].read)
  {
    var unread := UnreadCount(ns);
    var badge := if unread > 0 then Some(unread) else None;
    Bell(badge, badge, seq(|ns|, k requires 0 <= k < |ns| => (ns[k].title, !ns[k].read)), |ns| == 0, |ns| > 0)
  }

  /** The sample list shows two unread notifications. */
  lemma SampleHasTwoUnread()
    ensures UnreadCount(SampleNotifications) == 2
    ensures RenderBell(SampleNotifications).counterBadge == Some(2)
  {
  }

  // ------------------------------------------------------------ initials

  /** `.map(n => n[0]).join('')`: an empty word's `n[0]` is undefined and joins as nothing. */
  function FirstChars(words: seq<string>): (r: string)
    decreases |words|
  {
    if |words| == 0 then ""
    else (if words[0] == "" then "" else [words[0][0]]) + FirstChars(words[1..])
  }

  /** How many of the words are non-empty. */
  function NonEmptyCount(words: seq<string>): (r: nat)
    decreases |words|
  {
    if |words| == 0 then 0 else (if words[0] == "" then 0 else 1) + NonEmptyCount(words[1..])
  }

  /** One character per non-empty word. */
  lemma {:induction false} FirstCharsLength(words: seq<string>)
    ensures |FirstChars(words)| == NonEmptyCount(words)
    decreases |words|
  {
    if |words| > 0 {
      FirstCharsLength(words[1..]);
    }
  }

  /** `user.name.split(' ').map(n => n[0]).join('').toUpperCase().slice(0, 2)` */
  function Initials(name: string): (r: string)
    ensures |r| <= 2
    ensures |r| == if NonEmptyCount(Text.Split(name, ' ')) < 2 then NonEmptyCount(Text.Split(name, ' ')) else 2
  {
    var letters := Text.ToUpper(FirstChars(Text.Split(name, ' ')));
    FirstCharsLength(Text.Split(name, ' '));
    if |letters| <= 2 then letters else letters[..2]
  }

  /** Initials from the joined first characters: the first two, upper-cased. */
  lemma InitialsOfFirstChars(name: string, x: char, y: char, tail: string)
    requires FirstChars(Text.Split(name, ' ')) == [x, y] + tail
    ensures Initials(name) == [Text.ToUpperChar(x), Text.ToUpperChar(y)]
  {
    var letters := Text.ToUpper(FirstChars(Text.Split(name, ' ')));
    assert letters[0] == Text.ToUpperChar(x) && letters[1] == Text.ToUpperChar(y);
  }

  lemma SplitTwoWords(a: string, b: string)
    requires ' ' !in a && ' ' !in b
    ensures Text.Split(a + " " + b, ' ') == [a, b]
  {
    Text.SplitAfter(a, b, ' ');
    assert a + " " + b == a + [' '] + b;
  }

  lemma SplitMoreWords(a: string, b: string, rest: string)
    requires ' ' !in a && ' ' !in b
    ensures Text.Split(a + " " + b + " " + rest, ' ') == [a, b] + Text.Split(rest, ' ')
  {
    Regroup(a, b, rest);
    Text.SplitAfter(b, rest, ' ');
    Text.SplitAfter(a, b + [' '] + rest, ' ');
  }

  lemma Regroup(a: string, b: string, rest: string)
    ensures a + " " + b + " " + rest == a + [' '] + (b + [' '] + rest)
  {
  }

  /** For two words without spaces, the initials are their upper-cased first characters. */
  lemma InitialsOfTwoWords(a: string, b: string)
    requires a != "" && b != "" && ' ' !in a && ' ' !in b
    ensures Initials(a + " " + b) == [Text.ToUpperChar(a[0]), Text.ToUpperChar(b[0])]
  {
    FirstCharsCons(a, [b]);
    FirstCharsCons(b, []);
    assert [a] + [b] == [a, b] && [b] + [] == [b];
    SplitTwoWords(a, b);
    InitialsOfFirstChars(a + " " + b, a[0], b[0], "");
  }

  /** Words after the second one do not change the initials. */
  lemma LaterWordsIgnored(a: string, b: string, rest: string)
    requires a != "" && b != "" && ' ' !in a && ' ' !in b
    ensures Initials(a + " " + b + " " + rest) == [Text.ToUpperChar(a[0]), Text.ToUpperChar(b[0])]
  {
    var name := a + " " + b + " " + rest;
    var tail := Text.Split(rest, ' ');
    SplitMoreWords(a, b, rest);
    FirstCharsOfTwoWords(a, b, tail);
    InitialsOfFirstChars(name, a[0], b[0], FirstChars(tail));
  }

  /** Two non-empty words in front contribute their first characters. */
  lemma FirstCharsOfTwoWords(a: string, b: string, tail: seq<string>)
    requires a != "" && b != ""
    ensures FirstChars([a, b] + tail) == [a[0], b[0]] + FirstChars(tail)
  {
    FirstCharsCons(a, [b]);
    FirstCharsCons(b, []);
    assert [a] + [b] == [a, b] && [b] + [] == [b];
    FirstCharsAppend([a, b], tail);
  }

  lemma {:induction false} FirstCharsAppend(xs: seq<string>, ys: seq<string>)
    ensures FirstChars(xs + ys) == FirstChars(xs) + FirstChars(ys)
    decreases |xs|
  {
    if |xs| == 0 {
      assert xs + ys == ys;
    } else {
      assert (xs + ys)[1..] == xs[1..] + ys;
      FirstCharsAppend(xs[1..], ys);
    }
  }

  /** A word in front contributes its first character, or nothing when it is empty. */
  lemma FirstCharsCons(w: string, ws: seq<string>)
    ensures FirstChars([w] + ws) == (if w == "" then "" else [w[0]]) + FirstChars(ws)
  {
    assert ([w] + ws)[1..] == ws;
  }

  /** A doubled space adds no initial: "Ada  Lovelace" gives the same as "Ada Lovelace". */
  lemma DoubleSpaceIgnored(a: string, b: string)
    requires a != "" && b != "" && ' ' !in a && ' ' !in b
    ensures Initials(a + "  " + b) == Initials(a + " " + b)
  {
    var name := a + "  " + b;
    SplitMoreWords(a, "", b);
    assert a + " " + "" + " " + b == name;
    assert Text.Split(b, ' ') == [b];
    var words := Text.Split(name, ' ');
    assert words == [a, ""] + [b];
    FirstCharsCons(a, ["", b]);
    FirstCharsCons("", [b]);
    FirstCharsCons(b, []);
    assert [a, ""] + [b] == [a] + ["", b];
    assert [""] + [b] == ["", b];
    assert [b] + [] == [b];
    assert FirstChars(words) == [a[0], b[0]];
    InitialsOfFirstChars(name, a[0], b[0], "");
    InitialsOfTwoWords(a, b);
  }

  /** The header's parts; `showSearch` and `showNotifications` default to true when not given. */
  datatype View = View(search: bool, bell: Option<Bell>, userMenu: Option<string>)

  datatype User = User(name: string, email: string, avatar: Option<string>)

  function Render(user: Option<User>, showSearch: Option<bool>, showNotifications: Option<bool>): (r: View)
    ensures r.search <==> showSearch != Some(false)
    ensures r.bell.Some? <==> showNotifications != Some(false)
    ensures r.userMenu.Some? <==> user.Some?
    ensures r.userMenu.Some? ==> r.userMenu.value == Initials(user.value.name)
  {
    View(
      match showSearch case None => true case Some(b) => b,
      if (match showNotifications case None => true case Some(b) => b)
      then Some(RenderBell(SampleNotifications)) else None,
      if user.Some? then Some(Initials(user.value.name)) else None)
  }
}
