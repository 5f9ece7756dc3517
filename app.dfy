/**
 * The application shell: the login gate, the current view, the optional
 * selected employee (the drill-down into a profile) and the palette's open
 * flag. The pure functions give the state after each handler; the class `Shell`
 * holds the state in fields and its handlers are proved against them.
 */
module App {
  import opened Wrappers
  import opened Types
  import CommandPalette
  import Login

  /** The six top-level views. */
  datatype View = DashboardView | EmployeesView | AttendanceView | LeaveView | PayrollView | AnalyticsView {
    /** The string id the program uses for the view. */
    function Id(): string {
      match this
      case DashboardView => "dashboard"
      case EmployeesView => "employees"
      case AttendanceView => "attendance"
      case LeaveView => "leave"
      case PayrollView => "payroll"
      case AnalyticsView => "analytics"
    }
  }

  function ParseView(s: string): (r: Option<View>)
    ensures r.Some? ==> r.value.Id() == s
    ensures r.None? ==> forall v: View :: v.Id() != s
  {
    match s
    case "dashboard" => Some(DashboardView)
    case "employees" => Some(EmployeesView)
    case "attendance" => Some(AttendanceView)
    case "leave" => Some(LeaveView)
    case "payroll" => Some(PayrollView)
    case "analytics" => Some(AnalyticsView)
    case _ => None
  }

  /** The palette's command tokens are exactly the six view ids, each once. */
  lemma TokensAreViewIds()
    ensures forall i :: 0 <= i < |CommandPalette.Tokens| ==> ParseView(CommandPalette.Tokens[i]).Some?
    ensures forall v: View :: v.Id() in CommandPalette.Tokens
    ensures forall i, j :: 0 <= i < j < |CommandPalette.Tokens| ==> CommandPalette.Tokens[i] != CommandPalette.Tokens[j]
  {
    var t := CommandPalette.Tokens;
    assert t[0] == DashboardView.Id() && t[1] == EmployeesView.Id() && t[2] == AttendanceView.Id();
    assert t[3] == LeaveView.Id() && t[4] == PayrollView.Id() && t[5] == AnalyticsView.Id();
  }

  /** One entry of the sidebar. */
  datatype NavItem = NavItem(id: View, name: string)

  /** The sidebar entries, in order. */
  const Navigation: seq<NavItem> := [
    NavItem(DashboardView, "Dashboard"),
    NavItem(EmployeesView, "Employees"),
    NavItem(AttendanceView, "Attendance"),
    NavItem(LeaveView, "Leave Management"),
    NavItem(PayrollView, "Payroll"),
    NavItem(AnalyticsView, "Analytics")
  ]

  /** The label of each view, stated directly. */
  function Label(v: View): string
  {
    match v
    case DashboardView => "Dashboard"
    case EmployeesView => "Employees"
    case AttendanceView => "Attendance"
    case LeaveView => "Leave Management"
    case PayrollView => "Payroll"
    case AnalyticsView => "Analytics"
  }

  /** `navigation.find(n => n.id === v)`: the first entry for view `v`, if any. */
  function FindNav(items: seq<NavItem>, v: View): (r: Option<NavItem>)
    ensures r.Some? ==> r.value in items && r.value.id == v
    ensures r.Some? ==> exists k :: 0 <= k < |items| && items[k] == r.value && forall j :: 0 <= j < k ==> items[j].id != v
    ensures r.None? ==> forall i :: 0 <= i < |items| ==> items[i].id != v
  {
    if items == [] then None
    else if items[0].id == v then Some(items[0])
    else FindNav(items[1..], v)
  }

  /** Every view has exactly one sidebar entry, and it carries the view's label. */
  lemma NavigationCoversViews()
    ensures forall v: View :: FindNav(Navigation, v) == Some(NavItem(v, Label(v)))
    ensures forall i, j :: 0 <= i < j < |Navigation| ==> Navigation[i].id != Navigation[j].id
  {
    forall v: View
      ensures FindNav(Navigation, v) == Some(NavItem(v, Label(v)))
    {
      var n := Navigation;
      assert n[1..][1..][1..][1..][1..] == [n[5]];
    }
  }

  /** What the page shows. */
  datatype Screen =
    | LoginPage
    | ProfilePage(employee: Employee)
    | DashboardPage
    | EmployeeListPage
    | AttendancePage
    | LeavePage
    | PayrollPage

  /** The shell's state fields. */
  datatype ShellState = ShellState(
    isAuthenticated: bool,
    userEmail: string,
    currentView: View,
    selectedEmployee: Option<Employee>,
    commandOpen: bool)

  const Initial: ShellState := ShellState(false, "", DashboardView, None, false)

  /** The panel for each view; analytics reuses the dashboard. */
  function PanelFor(v: View): (sc: Screen)
    ensures sc != LoginPage && !sc.ProfilePage?
    ensures sc == DashboardPage <==> v == DashboardView || v == AnalyticsView
    ensures sc == EmployeeListPage <==> v == EmployeesView
    ensures sc == AttendancePage <==> v == AttendanceView
    ensures sc == LeavePage <==> v == LeaveView
    ensures sc == PayrollPage <==> v == PayrollView
  {
    match v
    case DashboardView => DashboardPage
    case EmployeesView => EmployeeListPage
    case AttendanceView => AttendancePage
    case LeaveView => LeavePage
    case PayrollView => PayrollPage
    case AnalyticsView => DashboardPage
  }

  /** `renderContent`: a selected employee's profile takes precedence over the view. */
  function RenderContent(s: ShellState): (sc: Screen)
    ensures sc.ProfilePage? <==> s.selectedEmployee.Some?
    ensures s.selectedEmployee.Some? ==> sc.employee == s.selectedEmployee.value
    ensures sc != LoginPage
  {
    match s.selectedEmployee
    case Some(e) => ProfilePage(e)
    case None => PanelFor(s.currentView)
  }

  /** The page: the login form until authenticated, then the content. */
  function Render(s: ShellState): (sc: Screen)
    ensures sc == LoginPage <==> !s.isAuthenticated
  {
    if !s.isAuthenticated then LoginPage else RenderContent(s)
  }

  /** While an employee is selected, the profile is shown whatever the current view. */
  lemma SelectionOverridesView(s: ShellState, v: View)
    requires s.isAuthenticated && s.selectedEmployee.Some?
    ensures Render(s) == Render(s.(currentView := v)) == ProfilePage(s.selectedEmployee.value)
  {
  }

  /** `getCurrentTitle`: the selected employee's name, else the sidebar label of the view. */
  function CurrentTitle(s: ShellState): (t: string)
    ensures s.selectedEmployee.Some? ==> t == s.selectedEmployee.value.name
    ensures s.selectedEmployee.None? ==> t == Label(s.currentView)
  {
    match s.selectedEmployee
    case Some(e) => e.name
    case None =>
      NavigationCoversViews();
      match FindNav(Navigation, s.currentView)
      case Some(item) => if item.name != "" then item.name else "Dashboard"
      case None => "Dashboard"
  }

  /** Whether a sidebar entry is highlighted. */
  function IsActive(s: ShellState, item: NavItem): (active: bool)
    ensures s.selectedEmployee.Some? ==> !active
    ensures active && s.isAuthenticated ==> Render(s) == PanelFor(item.id)
    ensures active ==> CurrentTitle(s) == Label(item.id)
  {
    s.currentView == item.id && s.selectedEmployee.None?
  }

  /** No entry is highlighted during a drill-down; otherwise exactly the current view's entry is. */
  lemma Highlighting(s: ShellState)
    ensures s.selectedEmployee.Some? ==> forall i :: 0 <= i < |Navigation| ==> !IsActive(s, Navigation[i])
    ensures s.selectedEmployee.None? ==> exists i :: 0 <= i < |Navigation| && IsActive(s, Navigation[i])
    ensures forall i, j :: 0 <= i < |Navigation| && 0 <= j < |Navigation| && IsActive(s, Navigation[i]) && IsActive(s, Navigation[j]) ==> i == j
  {
    NavigationCoversViews();
    if s.selectedEmployee.None? {
      var item := FindNav(Navigation, s.currentView).value;
      var i :| 0 <= i < |Navigation| && Navigation[i] == item;
      assert IsActive(s, Navigation[i]);
    }
  }

  /** `handleLogin`: remember the email and let the user in; the password is not used. */
  function AfterLogin(s: ShellState, email: string, password: string): (r: ShellState)
    ensures r.isAuthenticated && r.userEmail == email
    ensures r.currentView == s.currentView && r.selectedEmployee == s.selectedEmployee && r.commandOpen == s.commandOpen
  {
    s.(isAuthenticated := true, userEmail := email)
  }

  /** `handleLogout`: back to the initial state, except that the palette flag is kept. */
  function AfterLogout(s: ShellState): (r: ShellState)
    ensures r == Initial.(commandOpen := s.commandOpen)
    ensures Render(r) == LoginPage
  {
    s.(isAuthenticated := false, userEmail := "", currentView := DashboardView, selectedEmployee := None)
  }

  /**
   * A sidebar click, or the Home (view `dashboard`) or Employees (view `employees`)
   * breadcrumb: set the view and clear the selection together.
   */
  function AfterSelectView(s: ShellState, v: View): (r: ShellState)
    ensures r.selectedEmployee.None? && r.currentView == v
    ensures r.isAuthenticated == s.isAuthenticated && r.userEmail == s.userEmail && r.commandOpen == s.commandOpen
    ensures r.isAuthenticated ==> Render(r) == PanelFor(v) && CurrentTitle(r) == Label(v)
  {
    s.(currentView := v, selectedEmployee := None)
  }

  /** Selecting the same view twice is the same as once. */
  lemma SelectViewIdempotent(s: ShellState, v: View)
    ensures AfterSelectView(AfterSelectView(s, v), v) == AfterSelectView(s, v)
  {
  }

  /** A directory row click: open that employee's profile; the view is kept. */
  function AfterSelectEmployee(s: ShellState, e: Employee): (r: ShellState)
    ensures r == s.(selectedEmployee := Some(e))
    ensures r.selectedEmployee == Some(e) && r.currentView == s.currentView
    ensures r.isAuthenticated ==> Render(r) == ProfilePage(e)
    ensures CurrentTitle(r) == e.name
  {
    s.(selectedEmployee := Some(e))
  }

  /** The profile's back button: clear only the selection, so the previous view shows again. */
  function AfterBack(s: ShellState): (r: ShellState)
    ensures r == s.(selectedEmployee := None)
    ensures r.selectedEmployee.None? && r.currentView == s.currentView
    ensures r.isAuthenticated ==> Render(r) == PanelFor(s.currentView)
  {
    s.(selectedEmployee := None)
  }

  /** Opening a profile and going back restores the state it was opened from. */
  lemma BackUndoesSelect(s: ShellState, e: Employee)
    requires s.selectedEmployee.None?
    ensures AfterBack(AfterSelectEmployee(s, e)) == s
  {
  }

  /** The sidebar's search button opens the palette. */
  function AfterOpenSearch(s: ShellState): (r: ShellState)
    ensures r.commandOpen && r == s.(commandOpen := true)
  {
    s.(commandOpen := true)
  }

  /** A palette event whose navigation token, if any, names a view. */
  predicate Wired(ev: CommandPalette.Event)
  {
    ev.Navigate? ==> ParseView(ev.token).Some?
  }

  /** The wiring of the palette: `onNavigate` is `setCurrentView` and `onOpenChange` is `setCommandOpen`. */
  function Apply(s: ShellState, ev: CommandPalette.Event): ShellState
    requires Wired(ev)
  {
    match ev
    case Navigate(token) => s.(currentView := ParseView(token).value)
    case OpenChange(b) => s.(commandOpen := b)
  }

  /** The palette's events applied in order. */
  function ApplyAll(s: ShellState, evs: seq<CommandPalette.Event>): ShellState
    requires forall i :: 0 <= i < |evs| ==> Wired(evs[i])
    decreases |evs|
  {
    if evs == [] then s else ApplyAll(Apply(s, evs[0]), evs[1..])
  }

  /** A key press; the palette and its listener exist only once the user is logged in. */
  function AfterKeyDown(s: ShellState, key: string, meta: bool, ctrl: bool): (r: ShellState)
    ensures r == s.(commandOpen := r.commandOpen)
    ensures r.commandOpen != s.commandOpen <==> s.isAuthenticated && CommandPalette.IsShortcut(key, meta, ctrl)
  {
    if s.isAuthenticated then
      var evs := CommandPalette.KeyDown(s.commandOpen, key, meta, ctrl);
      assert evs != [] ==> evs[1..] == [] && ApplyAll(s, evs) == ApplyAll(Apply(s, evs[0]), []);
      ApplyAll(s, evs)
    else s
  }

  /**
   * Choosing a command, as the program wires it: the view changes and the
   * palette closes, but the selected employee is left as it was.
   */
  function AfterPaletteSelect(s: ShellState, token: string): (r: ShellState)
    requires token in CommandPalette.Tokens
    ensures Some(r.currentView) == ParseView(token) && !r.commandOpen
    ensures r.selectedEmployee == s.selectedEmployee
    ensures r.isAuthenticated == s.isAuthenticated && r.userEmail == s.userEmail
  {
    TokensAreViewIds();
    var evs := CommandPalette.HandleSelect(token);
    var s1 := Apply(s, evs[0]);
    assert ApplyAll(s, evs) == ApplyAll(s1, evs[1..]);
    assert evs[1..][1..] == [] && ApplyAll(s1, evs[1..]) == ApplyAll(Apply(s1, evs[1]), []);
    ApplyAll(s, evs)
  }

  /**
   * The palette's navigation does not clear the selection: with a profile open,
   * choosing "payroll" changes the view behind the profile but the profile stays
   * on screen, while a sidebar click on Payroll shows the payroll panel.
   */
  lemma PaletteSelectKeepsProfile(s: ShellState, e: Employee)
    requires s.isAuthenticated && s.selectedEmployee == Some(e)
    ensures Render(AfterPaletteSelect(s, "payroll")) == ProfilePage(e)
    ensures AfterPaletteSelect(s, "payroll").currentView == PayrollView
    ensures Render(AfterSelectView(s, PayrollView)) == PayrollPage
  {
  }

  /** Choosing a command as every other navigation does it: select the view (clearing the selection), then close. */
  function AfterPaletteSelectIntended(s: ShellState, token: string): (r: ShellState)
    requires token in CommandPalette.Tokens
    ensures Some(r.currentView) == ParseView(token) && !r.commandOpen && r.selectedEmployee.None?
    ensures r.isAuthenticated ==> Render(r) == PanelFor(r.currentView) && CurrentTitle(r) == Label(r.currentView)
    ensures r == AfterSelectView(s, r.currentView).(commandOpen := false)
  {
    TokensAreViewIds();
    AfterSelectView(s, ParseView(token).value).(commandOpen := false)
  }

  /**
   * Logging in from a fresh start: the user gets in exactly when the submitted
   * pair is the accepted one, and then sees the dashboard with nothing selected.
   */
  lemma FreshLogin(email: string, password: string)
    ensures var g := Login.AfterSubmit(Login.InitialForm.(email := email, password := password));
      var loggedIn := g.pending.Some? && Login.AfterResolve(g).1.Some?;
      (loggedIn <==> Login.Attempt(email, password).Ok?) &&
      (loggedIn ==> Render(AfterLogin(Initial, email, password)) == DashboardPage)
  {
    Login.SubmitThenResolveIsAttempt(Login.InitialForm.(email := email, password := password));
  }

  /** The shell component, whose handlers update its state fields in place. */
  class Shell {
    var isAuthenticated: bool
    var userEmail: string
    var currentView: View
    var selectedEmployee: Option<Employee>
    var commandOpen: bool

    function State(): ShellState
      reads this
    {
      ShellState(isAuthenticated, userEmail, currentView, selectedEmployee, commandOpen)
    }

    constructor ()
      ensures State() == Initial
    {
      isAuthenticated, userEmail, currentView, selectedEmployee, commandOpen := false, "", DashboardView, None, false;
    }

    method HandleLogin(email: string, password: string)
      modifies this
      ensures State() == AfterLogin(old(State()), email, password)
    {
      userEmail := email;
      isAuthenticated := true;
    }

    method HandleLogout()
      modifies this
      ensures State() == AfterLogout(old(State()))
    {
      isAuthenticated := false;
      userEmail := "";
      currentView := DashboardView;
      selectedEmployee := None;
    }

    /** A click on the sidebar entry for `item`. */
    method ClickNav(item: NavItem)
      modifies this
      ensures State() == AfterSelectView(old(State()), item.id)
    {
      currentView := item.id;
      selectedEmployee := None;
    }

    /** The Home breadcrumb. */
    method ClickHome()
      modifies this
      ensures State() == AfterSelectView(old(State()), DashboardView)
    {
      currentView := DashboardView;
      selectedEmployee := None;
    }

    /** The Employees breadcrumb, shown while a profile is open. */
    method ClickEmployeesCrumb()
      modifies this
      ensures State() == AfterSelectView(old(State()), EmployeesView)
    {
      currentView := EmployeesView;
      selectedEmployee := None;
    }

    /** `onSelectEmployee` from a directory row. */
    method SelectEmployee(e: Employee)
      modifies this
      ensures State() == AfterSelectEmployee(old(State()), e)
    {
      selectedEmployee := Some(e);
    }

    /** The profile's `onBack`. */
    method Back()
      modifies this
      ensures State() == AfterBack(old(State()))
    {
      selectedEmployee := None;
    }

    /** The sidebar's search button. */
    method OpenSearch()
      modifies this
      ensures State() == AfterOpenSearch(old(State()))
    {
      commandOpen := true;
    }

    /** A keydown reaching the palette's listener (present only while logged in). */
    method KeyDown(key: string, meta: bool, ctrl: bool)
      modifies this
      ensures State() == AfterKeyDown(old(State()), key, meta, ctrl)
    {
      if isAuthenticated && CommandPalette.IsShortcut(key, meta, ctrl) {
        commandOpen := !commandOpen;
      }
    }

    /** A command chosen in the palette: `setCurrentView(token)`, then `setCommandOpen(false)`. */
    method PaletteSelect(token: string)
      requires token in CommandPalette.Tokens
      modifies this
      ensures State() == AfterPaletteSelect(old(State()), token)
    {
      TokensAreViewIds();
      currentView := ParseView(token).value;
      commandOpen := false;
    }
  }
}
