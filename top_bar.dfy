/** The two drop-down menus of src/components/layout/TopBar.tsx: the
    notifications panel and the profile menu. Opening one closes the other. */
module TopBar {
  /** The two state flags of the component. */
  datatype Menus = Menus(notificationsOpen: bool, profileOpen: bool)

  const ALL_CLOSED := Menus(false, false)

  datatype Action = ToggleNotifications | ToggleProfile

  predicate AtMostOneOpen(m: Menus) {
    !(m.notificationsOpen && m.profileOpen)
  }

  /** One click. Both setters read the flags of the render the click came
      from: the clicked menu flips, and the other is set to false when it
      was open, so it is closed afterwards either way. */
  function Apply(m: Menus, a: Action): (r: Menus)
    ensures a == ToggleNotifications ==> r.notificationsOpen == !m.notificationsOpen && !r.profileOpen
    ensures a == ToggleProfile ==> r.profileOpen == !m.profileOpen && !r.notificationsOpen
    ensures AtMostOneOpen(r)
  {
    match a
    case ToggleNotifications =>
      Menus(!m.notificationsOpen, if m.profileOpen then false else m.profileOpen)
    case ToggleProfile =>
      Menus(if m.notificationsOpen then false else m.notificationsOpen, !m.profileOpen)
  }

  /** The flags after a sequence of clicks. */
  function Run(m: Menus, actions: seq<Action>): Menus {
    if actions == [] then m else Apply(Run(m, actions[..|actions| - 1]), actions[|actions| - 1])
  }

  /** Whether `m` is the menu that `a` toggles, and it is open. */
  predicate IsOpenBy(m: Menus, a: Action) {
    match a
    case ToggleNotifications => m.notificationsOpen
    case ToggleProfile => m.profileOpen
  }

  /** Count of trailing clicks equal to the last one. */
  function TrailingRun(actions: seq<Action>): (n: nat)
    requires actions != []
    ensures 1 <= n <= |actions|
  {
    var last := actions[|actions| - 1];
    var prev := actions[..|actions| - 1];
    if prev != [] && prev[|prev| - 1] == last then TrailingRun(prev) + 1 else 1
  }

  /** From both menus closed, after any clicks: at most one menu is open,
      only the menu clicked last can be open, and it is open exactly when
      it was clicked an odd number of times in a row at the end. */
  lemma {:induction false} RunFromClosed(actions: seq<Action>)
    requires actions != []
    ensures AtMostOneOpen(Run(ALL_CLOSED, actions))
    ensures var last := actions[|actions| - 1];
      var m := Run(ALL_CLOSED, actions);
      (last == ToggleNotifications ==> !m.profileOpen) &&
      (last == ToggleProfile ==> !m.notificationsOpen) &&
      (IsOpenBy(m, last) <==> TrailingRun(actions) % 2 == 1)
  {
    var last := actions[|actions| - 1];
    var prev := actions[..|actions| - 1];
    if prev != [] {
      RunFromClosed(prev);
    }
  }

  /** Every state reached from the initial one has at most one menu open. */
  lemma NeverBothOpen(actions: seq<Action>)
    ensures AtMostOneOpen(Run(ALL_CLOSED, actions))
  {
    if actions != [] {
      RunFromClosed(actions);
    }
  }

  /** Clicking the same menu twice from the closed state closes it again. */
  lemma ToggleTwice(a: Action)
    ensures Run(ALL_CLOSED, [a, a]) == ALL_CLOSED
  {
    assert [a, a][..1] == [a];
    assert [a][..0] == [];
    assert Run(ALL_CLOSED, [a]) == Apply(ALL_CLOSED, a);
  }

  class TopBarState {
    var isNotificationsOpen: bool
    var isProfileOpen: bool

    function State(): Menus
      reads this
    {
      Menus(isNotificationsOpen, isProfileOpen)
    }

    constructor()
      ensures State() == ALL_CLOSED
    {
      isNotificationsOpen := false;
      isProfileOpen := false;
    }

    /** `toggleNotifications`. */
    method ToggleNotifications()
      modifies this
      ensures State() == Apply(old(State()), Action.ToggleNotifications)
      ensures isNotificationsOpen == !old(isNotificationsOpen) && !isProfileOpen
    {
      var wasOpen := isNotificationsOpen;
      var otherOpen := isProfileOpen;
      isNotificationsOpen := !wasOpen;
      if otherOpen {
        isProfileOpen := false;
      }
    }

    /** `toggleProfile`. */
    method ToggleProfile()
      modifies this
      ensures State() == Apply(old(State()), Action.ToggleProfile)
      ensures isProfileOpen == !old(isProfileOpen) && !isNotificationsOpen
    {
      var wasOpen := isProfileOpen;
      var otherOpen := isNotificationsOpen;
      isProfileOpen := !wasOpen;
      if otherOpen {
        isNotificationsOpen := false;
      }
    }
  }
}
