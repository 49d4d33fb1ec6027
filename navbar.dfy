/** The navigation bar: a role-dependent menu, three drop-downs of which at most one is open,
    the login modal with its return address, and the signed-in user's initials and role
    label. The router and the DOM are outside the model: a navigation is returned as the path
    it goes to, a document click says whether it landed inside the bar, and the query
    parameters of a navigation are passed in. */
module Navbar {
  import opened Wrappers
  import opened Text

  /** The signed-in user as the session stores it; `role` is whatever the stored record
      carries under that key. */
  datatype User = User(id: int, username: string, email: string, name: Option<string>, role: Option<string>)

  datatype MenuItem = MenuItem(title: string, path: string, exact: bool, fragment: Option<string>)

  datatype Notification = Notification(id: int, text: string, time: string, read: bool)

  const DefaultReturnUrl := "/reports"
  const NewReportUrl := "/reports/new"

  // ---------------------------------------------------------------- menus

  /** `menuItems`: the guest menu, the administrator menu, or the citizen menu. */
  function MenuItems(user: Option<User>): seq<MenuItem> {
    if user.None? then
      [ MenuItem("Inicio", "/", true, None),
        MenuItem("Explorar Mapa", "/", false, Some("mapa")),
        MenuItem("Contacto", "/", false, Some("contacto")) ]
    else if user.value.role == Some("ADMIN") then
      [ MenuItem("Dashboard", "/", true, Some("dashboard")),
        MenuItem("Gestión Reportes", "/reports", false, None),
        MenuItem("Usuarios", "/", false, Some("usuarios")),
        MenuItem("Configuración", "/", false, Some("config")) ]
    else
      [ MenuItem("Inicio", "/", true, None),
        MenuItem("Mis Reportes", "/reports", false, None),
        MenuItem("Mapa de Incidentes", "/", false, Some("mapa")),
        MenuItem("Ayuda", "/", false, Some("ayuda")) ]
  }

  /** Every menu opens with its one exact-match entry; the reports page is in the menu exactly
      when someone is signed in, as its second entry; any role other than "ADMIN" gets the
      citizen menu. */
  lemma MenuItemsSpec(user: Option<User>)
    ensures var items := MenuItems(user);
      && |items| == (if user.None? then 3 else 4)
      && items[0].exact
      && (forall i :: 1 <= i < |items| ==> !items[i].exact)
      && (forall i :: 0 <= i < |items| ==> items[i].path in {"/", "/reports"})
      && ((exists i :: 0 <= i < |items| && items[i].path == "/reports") <==> user.Some?)
      && (user.Some? ==> items[1].path == "/reports")
    ensures user.Some? && user.value.role != Some("ADMIN") ==>
              MenuItems(user) == MenuItems(Some(user.value.(role := None)))
  {
    var items := MenuItems(user);
    if user.Some? {
      assert items[1].path == "/reports";
    }
  }

  // ---------------------------------------------------------------- notifications

  /** The mock notifications: one unread, one read. */
  const SampleNotifications: seq<Notification> := [
    Notification(1, "Su reporte #123 ha sido \"En Proceso\"", "Hace 2 min", false),
    Notification(2, "Bienvenido a la plataforma digital.", "Hace 1 día", true)
  ]

  /** `unreadCount`: the length of the list of unread notifications. */
  function UnreadCount(ns: seq<Notification>): nat
    decreases |ns|
  {
    if ns == [] then 0 else (if ns[0].read then 0 else 1) + UnreadCount(ns[1..])
  }

  /** The count is bounded by the list; it is zero exactly when everything is read and the
      full length exactly when nothing is. */
  lemma {:induction false} UnreadCountSpec(ns: seq<Notification>)
    ensures UnreadCount(ns) <= |ns|
    ensures UnreadCount(ns) == 0 <==> forall i :: 0 <= i < |ns| ==> ns[i].read
    ensures UnreadCount(ns) == |ns| <==> forall i :: 0 <= i < |ns| ==> !ns[i].read
    decreases |ns|
  {
    if ns != [] {
      UnreadCountSpec(ns[1..]);
      assert forall i :: 1 <= i < |ns| ==> ns[i] == ns[1..][i - 1];
    }
  }

  lemma SampleUnreadCount()
    ensures UnreadCount(SampleNotifications) == 1
  {
  }

  // ---------------------------------------------------------------- user helpers

  /** The first character of a piece, or nothing for an empty piece (`p[0]` is `undefined`,
      which `join` writes as nothing). */
  function Initial(p: string): string {
    if p == [] then [] else [p[0]]
  }

  /** `userInitials`: "U" without a name; otherwise the first characters of the first two
      pieces of the name split at spaces, upper-cased. */
  function UserInitials(user: Option<User>): string {
    if user.None? || user.value.name.None? || user.value.name.value == "" then "U"
    else
      var parts := Split(user.value.name.value, ' ');
      Upper(Initial(parts[0]) + if |parts| > 1 then Initial(parts[1]) else [])
  }

  lemma {:induction false} SplitWithoutSeparator(w: string, sep: char)
    requires sep !in w
    ensures Split(w, sep) == [w]
    decreases |w|
  {
    if |w| > 0 {
      SplitWithoutSeparator(w[1..], sep);
      assert [w[0]] + w[1..] == w;
    }
  }

  lemma {:induction false} SplitAtFirstSeparator(a: string, sep: char, t: string)
    requires sep !in a
    ensures Split(a + [sep] + t, sep) == [a] + Split(t, sep)
    decreases |a|
  {
    if |a| > 0 {
      SplitAtFirstSeparator(a[1..], sep, t);
      assert (a + [sep] + t)[1..] == a[1..] + [sep] + t;
      assert [a[0]] + a[1..] == a;
    } else {
      assert a + [sep] + t == [sep] + t;
    }
  }

  /** A name of one or more words, separated by single spaces, has as initials the
      upper-cased first letters of its first two words. */
  lemma InitialsOfWords(u: User, first: string, second: string, more: string)
    requires first != [] && ' ' !in first && second != [] && ' ' !in second
    ensures UserInitials(Some(u.(name := Some(first)))) == Upper([first[0]])
    ensures UserInitials(Some(u.(name := Some(first + " " + second)))) == Upper([first[0], second[0]])
    ensures UserInitials(Some(u.(name := Some(first + " " + second + " " + more)))) == Upper([first[0], second[0]])
  {
    SplitWithoutSeparator(first, ' ');
    SplitAtFirstSeparator(first, ' ', second);
    SplitWithoutSeparator(second, ' ');
    assert first + " " + second == first + [' '] + second;
    var rest := second + " " + more;
    SplitAtFirstSeparator(first, ' ', rest);
    SplitAtFirstSeparator(second, ' ', more);
    assert first + " " + second + " " + more == first + [' '] + rest;
    assert rest == second + [' '] + more;
  }

  /** The initials are at most two characters and carry no lower-case ASCII letter. */
  lemma UserInitialsShape(user: Option<User>)
    ensures |UserInitials(user)| <= 2
    ensures forall i :: 0 <= i < |UserInitials(user)| ==> !('a' <= UserInitials(user)[i] <= 'z')
  {
  }

  /** `userRoleLabel`. */
  function UserRoleLabel(user: Option<User>): string {
    if user.Some? && user.value.role == Some("ADMIN") then "Administrador" else "Ciudadano"
  }

  /** The administrator label and the administrator menu go together. */
  lemma RoleLabelMatchesMenu(user: Option<User>)
    ensures UserRoleLabel(user) == "Administrador" <==> MenuItems(user)[0].title == "Dashboard"
  {
  }

  /** `loginReturnUrl` after `openLoginModal(returnUrl)`: the trimmed address, or the default
      when it is missing or blank. */
  function ReturnUrlFor(returnUrl: Option<string>): string {
    if returnUrl.None? || Trim(returnUrl.value) == "" then DefaultReturnUrl else Trim(returnUrl.value)
  }

  /** The return address is never empty and never starts or ends with white space; it is the
      default exactly when the given address is missing or all white space. */
  lemma ReturnUrlForSpec(returnUrl: Option<string>)
    ensures ReturnUrlFor(returnUrl) != ""
    ensures !IsSpace(ReturnUrlFor(returnUrl)[0]) && !IsSpace(ReturnUrlFor(returnUrl)[|ReturnUrlFor(returnUrl)| - 1])
    ensures ReturnUrlFor(returnUrl) == DefaultReturnUrl <==>
              returnUrl.None? || AllSpace(returnUrl.value) || Trim(returnUrl.value) == DefaultReturnUrl
  {
    var d := DefaultReturnUrl;
    assert !IsSpace(d[0]) && !IsSpace(d[|d| - 1]);
    if returnUrl.Some? {
      TrimSpec(returnUrl.value);
    }
  }

  /** An address with no white space at either end is kept as it is. */
  lemma ReturnUrlOfUnpadded(u: string)
    requires u != [] && !IsSpace(u[0]) && !IsSpace(u[|u| - 1])
    ensures ReturnUrlFor(Some(u)) == u
  {
    TrimUnpadded(u);
  }

  // ---------------------------------------------------------------- the component

  /** `NavbarComponent`. */
  class NavbarComponent {
    var currentUser: Option<User>
    var menuOpen: bool
    var profileMenuOpen: bool
    var notificationsOpen: bool
    var showLoginModal: bool
    var loginReturnUrl: string
    var notifications: seq<Notification>

    /** At most one drop-down is open. */
    predicate AtMostOneOpen()
      reads this
    {
      && (menuOpen ==> !profileMenuOpen && !notificationsOpen)
      && (profileMenuOpen ==> !notificationsOpen)
    }

    constructor()
      ensures AtMostOneOpen()
      ensures currentUser.None? && !menuOpen && !profileMenuOpen && !notificationsOpen
      ensures !showLoginModal && loginReturnUrl == DefaultReturnUrl
      ensures notifications == SampleNotifications
    {
      currentUser := None;
      menuOpen := false;
      profileMenuOpen := false;
      notificationsOpen := false;
      showLoginModal := false;
      loginReturnUrl := DefaultReturnUrl;
      notifications := SampleNotifications;
    }

    /** The session reports a new user (or none). */
    method SetCurrentUser(user: Option<User>)
      modifies this
      ensures currentUser == user
      ensures menuOpen == old(menuOpen) && profileMenuOpen == old(profileMenuOpen)
      ensures notificationsOpen == old(notificationsOpen)
      ensures showLoginModal == old(showLoginModal) && loginReturnUrl == old(loginReturnUrl)
    {
      currentUser := user;
    }

    /** `toggleMenu`: flip the main menu; opening it closes the other two. */
    method ToggleMenu()
      requires AtMostOneOpen()
      modifies this
      ensures AtMostOneOpen()
      ensures menuOpen == !old(menuOpen)
      ensures menuOpen ==> !profileMenuOpen && !notificationsOpen
      ensures !menuOpen ==> profileMenuOpen == old(profileMenuOpen) && notificationsOpen == old(notificationsOpen)
      ensures currentUser == old(currentUser) && showLoginModal == old(showLoginModal) && loginReturnUrl == old(loginReturnUrl)
    {
      menuOpen := !menuOpen;
      if menuOpen {
        profileMenuOpen := false;
        notificationsOpen := false;
      }
    }

    /** `toggleProfileMenu`. */
    method ToggleProfileMenu()
      requires AtMostOneOpen()
      modifies this
      ensures AtMostOneOpen()
      ensures profileMenuOpen == !old(profileMenuOpen)
      ensures profileMenuOpen ==> !menuOpen && !notificationsOpen
      ensures !profileMenuOpen ==> menuOpen == old(menuOpen) && notificationsOpen == old(notificationsOpen)
      ensures currentUser == old(currentUser) && showLoginModal == old(showLoginModal) && loginReturnUrl == old(loginReturnUrl)
    {
      profileMenuOpen := !profileMenuOpen;
      if profileMenuOpen {
        menuOpen := false;
        notificationsOpen := false;
      }
    }

    /** `toggleNotifications`. */
    method ToggleNotifications()
      requires AtMostOneOpen()
      modifies this
      ensures AtMostOneOpen()
      ensures notificationsOpen == !old(notificationsOpen)
      ensures notificationsOpen ==> !menuOpen && !profileMenuOpen
      ensures !notificationsOpen ==> menuOpen == old(menuOpen) && profileMenuOpen == old(profileMenuOpen)
      ensures currentUser == old(currentUser) && showLoginModal == old(showLoginModal) && loginReturnUrl == old(loginReturnUrl)
    {
      notificationsOpen := !notificationsOpen;
      if notificationsOpen {
        menuOpen := false;
        profileMenuOpen := false;
      }
    }

    /** `closeAllMenus`. */
    method CloseAllMenus()
      modifies this
      ensures AtMostOneOpen()
      ensures !menuOpen && !profileMenuOpen && !notificationsOpen
      ensures currentUser == old(currentUser) && showLoginModal == old(showLoginModal) && loginReturnUrl == old(loginReturnUrl)
    {
      menuOpen := false;
      profileMenuOpen := false;
      notificationsOpen := false;
    }

    /** `logout`: close the menus, end the session (the user becomes null at once) and go to
        the home page, which is returned. */
    method Logout() returns (navigatedTo: string)
      modifies this
      ensures !menuOpen && !profileMenuOpen && !notificationsOpen
      ensures currentUser.None?
      ensures navigatedTo == "/"
      ensures showLoginModal == old(showLoginModal) && loginReturnUrl == old(loginReturnUrl)
    {
      CloseAllMenus();
      currentUser := None;
      navigatedTo := "/";
    }

    /** `handleNewReport`: a signed-in user goes to the new-report form; a guest gets the login
        modal with the form as return address. The menus end up closed either way. */
    method HandleNewReport() returns (navigatedTo: Option<string>)
      modifies this
      ensures !menuOpen && !profileMenuOpen && !notificationsOpen
      ensures currentUser == old(currentUser)
      ensures old(currentUser).Some? ==>
                navigatedTo == Some(NewReportUrl) && showLoginModal == old(showLoginModal) && loginReturnUrl == old(loginReturnUrl)
      ensures old(currentUser).None? ==>
                navigatedTo.None? && showLoginModal && loginReturnUrl == NewReportUrl
    {
      if currentUser.Some? {
        navigatedTo := Some(NewReportUrl);
      } else {
        ReturnUrlOfUnpadded(NewReportUrl);
        OpenLoginModal(Some(NewReportUrl));
        navigatedTo := None;
      }
      CloseAllMenus();
    }

    /** `openLoginModal`. */
    method OpenLoginModal(returnUrl: Option<string>)
      modifies this
      ensures !menuOpen && !profileMenuOpen && !notificationsOpen
      ensures showLoginModal && loginReturnUrl == ReturnUrlFor(returnUrl)
      ensures currentUser == old(currentUser)
    {
      CloseAllMenus();
      if returnUrl.Some? && Trim(returnUrl.value) != "" {
        loginReturnUrl := Trim(returnUrl.value);
      } else {
        loginReturnUrl := DefaultReturnUrl;
      }
      showLoginModal := true;
    }

    /** `closeLoginModal`: hide the modal and forget the return address. */
    method CloseLoginModal()
      modifies this
      ensures !showLoginModal && loginReturnUrl == DefaultReturnUrl
      ensures currentUser == old(currentUser) && menuOpen == old(menuOpen)
      ensures profileMenuOpen == old(profileMenuOpen) && notificationsOpen == old(notificationsOpen)
    {
      showLoginModal := false;
      loginReturnUrl := DefaultReturnUrl;
    }

    /** `onDocumentClick`: a click outside the bar closes the menus. */
    method OnDocumentClick(insideBar: bool)
      requires AtMostOneOpen()
      modifies this
      ensures AtMostOneOpen()
      ensures !insideBar ==> !menuOpen && !profileMenuOpen && !notificationsOpen
      ensures insideBar ==> menuOpen == old(menuOpen) && profileMenuOpen == old(profileMenuOpen) && notificationsOpen == old(notificationsOpen)
      ensures currentUser == old(currentUser) && showLoginModal == old(showLoginModal) && loginReturnUrl == old(loginReturnUrl)
    {
      if !insideBar {
        CloseAllMenus();
      }
    }

    /** `onEsc`. */
    method OnEsc()
      modifies this
      ensures !menuOpen && !profileMenuOpen && !notificationsOpen
      ensures currentUser == old(currentUser) && showLoginModal == old(showLoginModal) && loginReturnUrl == old(loginReturnUrl)
    {
      CloseAllMenus();
    }

    /** `syncLoginModalFromQuery`: the query `auth=login` opens the modal with the given return
        address when it is non-empty (not trimmed), else the default. It returns whether the
        query parameters are then cleared by a navigation. */
    method SyncLoginModalFromQuery(auth: Option<string>, returnUrl: Option<string>) returns (clearsQuery: bool)
      modifies this
      ensures clearsQuery == (auth == Some("login"))
      ensures clearsQuery ==>
                showLoginModal
                && loginReturnUrl == if returnUrl.Some? && returnUrl.value != "" then returnUrl.value else DefaultReturnUrl
      ensures !clearsQuery ==> showLoginModal == old(showLoginModal) && loginReturnUrl == old(loginReturnUrl)
      ensures currentUser == old(currentUser) && menuOpen == old(menuOpen)
      ensures profileMenuOpen == old(profileMenuOpen) && notificationsOpen == old(notificationsOpen)
    {
      clearsQuery := auth == Some("login");
      if clearsQuery {
        loginReturnUrl := if returnUrl.Some? && returnUrl.value != "" then returnUrl.value else DefaultReturnUrl;
        showLoginModal := true;
      }
    }

    /** A finished navigation closes the menus and then syncs the modal from its query. */
    method OnNavigationEnd(auth: Option<string>, returnUrl: Option<string>) returns (clearsQuery: bool)
      modifies this
      ensures !menuOpen && !profileMenuOpen && !notificationsOpen
      ensures clearsQuery == (auth == Some("login"))
      ensures clearsQuery ==>
                showLoginModal
                && loginReturnUrl == if returnUrl.Some? && returnUrl.value != "" then returnUrl.value else DefaultReturnUrl
      ensures !clearsQuery ==> showLoginModal == old(showLoginModal) && loginReturnUrl == old(loginReturnUrl)
      ensures currentUser == old(currentUser)
    {
      CloseAllMenus();
      clearsQuery := SyncLoginModalFromQuery(auth, returnUrl);
    }
  }
}
