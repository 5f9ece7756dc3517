/**
 * The command palette. It owns no state: it reports to its owner through two
 * callbacks, `onNavigate(token)` and `onOpenChange(open)`, modelled as the
 * sequence of events it emits. Registering and removing the keyboard listener
 * is not modelled; only the rule the listener applies is.
 */
module CommandPalette {

  /** One callback made by the palette. */
  datatype Event = Navigate(token: string) | OpenChange(open: bool)

  /** The tokens of the six navigation commands, in menu order. */
  const Tokens: seq<string> := ["dashboard", "employees", "attendance", "leave", "payroll", "analytics"]

  /** The shortcut: lower-case 'k' with the meta or the control key held. */
  function IsShortcut(key: string, meta: bool, ctrl: bool): (shortcut: bool)
    ensures shortcut ==> key == "k"
    ensures !meta && !ctrl ==> !shortcut
    ensures key == "k" && (meta || ctrl) ==> shortcut
  {
    key == "k" && (meta || ctrl)
  }

  /** The keydown listener `down`, while the palette's open flag is `open`. */
  function KeyDown(open: bool, key: string, meta: bool, ctrl: bool): (evs: seq<Event>)
    ensures |evs| <= 1
    ensures |evs| == 1 <==> IsShortcut(key, meta, ctrl)
    ensures forall i :: 0 <= i < |evs| ==> evs[i] == OpenChange(!open)
  {
    if IsShortcut(key, meta, ctrl) then [OpenChange(!open)] else []
  }

  /** `handleSelect(token)`: navigate first, then close. */
  function HandleSelect(token: string): (evs: seq<Event>)
    ensures |evs| == 2 && evs[0].Navigate? && evs[|evs| - 1].OpenChange?
    ensures evs[0].token == token && !evs[1].open
  {
    [Navigate(token), OpenChange(false)]
  }

  /** The open flag once the owner has applied `evs`; navigation leaves it alone. */
  function OpenAfter(open: bool, evs: seq<Event>): bool
    decreases |evs|
  {
    if evs == [] then open
    else
      match evs[0]
      case OpenChange(b) => OpenAfter(b, evs[1..])
      case Navigate(_) => OpenAfter(open, evs[1..])
  }

  /** The tokens navigated to by `evs`, in order. */
  function Navigations(evs: seq<Event>): seq<string>
  {
    if evs == [] then []
    else (if evs[0].Navigate? then [evs[0].token] else []) + Navigations(evs[1..])
  }

  /** The open flag after one key event: it flips exactly on the shortcut. */
  function Toggle(open: bool, key: string, meta: bool, ctrl: bool): (r: bool)
    ensures r != open <==> IsShortcut(key, meta, ctrl)
  {
    var evs := KeyDown(open, key, meta, ctrl);
    assert evs != [] ==> evs[1..] == [] && OpenAfter(open, evs) == OpenAfter(!open, []);
    OpenAfter(open, evs)
  }

  /** Pressing the same key twice restores the open flag. */
  lemma ToggleTwice(open: bool, key: string, meta: bool, ctrl: bool)
    ensures Toggle(Toggle(open, key, meta, ctrl), key, meta, ctrl) == open
  {
  }

  /** Upper-case 'K', or 'k' with no modifier, never changes the open flag. */
  lemma OnlyTheShortcutToggles(open: bool, meta: bool, ctrl: bool)
    ensures Toggle(open, "K", meta, ctrl) == open
    ensures Toggle(open, "k", false, false) == open
  {
  }

  /** Selecting a command navigates to its token once and always leaves the palette closed. */
  lemma SelectNavigatesThenCloses(open: bool, token: string)
    ensures Navigations(HandleSelect(token)) == [token]
    ensures OpenAfter(open, HandleSelect(token)) == false
  {
    var evs := HandleSelect(token);
    var tail := evs[1..];
    assert tail == [OpenChange(false)] && tail[1..] == [];
    assert OpenAfter(false, tail) == OpenAfter(false, tail[1..]);
    assert Navigations(tail) == [] + Navigations(tail[1..]);
  }
}
