/** The account/session state machine of the Valencire sign-in component:
    the in-memory user map, the signed-in email, the current view and error
    banner, and the two storage keys the component writes through to
    (`valencire_users` and `valencire_session`). */
module Valencire {
  import opened Records

  datatype View = Landing | SignIn | SignUp | Dashboard

  /** The buttons and links that change the view directly. */
  datatype Control = SignInButton | CreateAccountButton | CreateAccountLink | SignInLink | BackButton

  /** What the component renders. */
  datatype Screen =
    | LandingPage
    | SignInPage(banner: Option<string>)
    | SignUpPage(banner: Option<string>)
    | DashboardPage(user: User, recent: seq<Activity>)
    | Blank

  /** The view a control opens; none of them opens the dashboard. */
  function Destination(c: Control): (v: View)
    ensures v != Dashboard
    ensures v == Landing <==> c == BackButton
    ensures v == SignIn <==> c == SignInButton || c == SignInLink
  {
    match c
    case SignInButton => SignIn
    case SignInLink => SignIn
    case CreateAccountButton => SignUp
    case CreateAccountLink => SignUp
    case BackButton => Landing
  }

  /** Whether the page for view `v` shows control `c`: the landing page its
      two buttons, the sign-in and sign-up pages their cross link and Back. */
  predicate Offered(v: View, c: Control) {
    match c
    case SignInButton => v == Landing
    case CreateAccountButton => v == Landing
    case CreateAccountLink => v == SignIn
    case SignInLink => v == SignUp
    case BackButton => v == SignIn || v == SignUp
  }

  class AuthSystem {
    var view: View
    var users: map<string, User>
    var currentUser: Option<string>
    var error: string
    /** The `valencire_users` storage key, absent until first written. */
    var storedUsers: Option<map<string, User>>
    /** The `valencire_session` storage key. */
    var storedSession: Option<Session>

    /** The signed-in email is always the stored session's, and the stored
        users blob is the in-memory map (or absent while the map is empty). */
    ghost predicate Valid()
      reads this
    {
      && currentUser == (if storedSession.Some? then Some(storedSession.value.email) else None)
      && (storedUsers == Some(users) || (storedUsers == None && users == map[]))
    }

    /** `currentUser` is truthy: present and not the empty string. */
    predicate LoggedIn()
      reads this
    {
      currentUser.Some? && currentUser.value != ""
    }

    /** The signed-in email, if any, names a record of the store. */
    predicate SessionResolves()
      reads this
    {
      LoggedIn() ==> currentUser.value in users
    }

    /** Mounting the component and its startup effect: load the stored users
        if any, and trust the stored session's email without checking it. */
    constructor (savedUsers: Option<map<string, User>>, savedSession: Option<Session>)
      ensures Valid()
      ensures view == Landing && error == ""
      ensures storedUsers == savedUsers && storedSession == savedSession
      ensures users == (if savedUsers.Some? then savedUsers.value else map[])
      ensures currentUser == (if savedSession.Some? then Some(savedSession.value.email) else None)
    {
      view := Landing;
      error := "";
      storedUsers := savedUsers;
      storedSession := savedSession;
      users := if savedUsers.Some? then savedUsers.value else map[];
      currentUser := if savedSession.Some? then Some(savedSession.value.email) else None;
    }

    /** `getUserData`: the signed-in user's record, re-read from the map on
        every render. What it yields after each handler is stated there. */
    function GetUserData(): Option<User>
      reads this
    {
      if LoggedIn() && currentUser.value in users then Some(users[currentUser.value]) else None
    }

    /** Which branch of the component renders; the dashboard only with a
        resolved user, and nothing at all on the dashboard view without one. */
    function Render(): (s: Screen)
      reads this
      ensures s.DashboardPage? <==> view == Dashboard && GetUserData().Some?
      ensures s.DashboardPage? ==>
        s.user == GetUserData().value && s.recent == RecentActivities(s.user.activities)
      ensures s.Blank? <==> view == Dashboard && GetUserData().None?
      ensures s.SignInPage? <==> view == SignIn
      ensures s.SignUpPage? <==> view == SignUp
      ensures (s.SignInPage? || s.SignUpPage?) ==> (s.banner.Some? <==> error != "")
    {
      var banner := if error != "" then Some(error) else None;
      match view
      case Landing => LandingPage
      case SignIn => SignInPage(banner)
      case SignUp => SignUpPage(banner)
      case Dashboard =>
        var data := GetUserData();
        if data.Some? then DashboardPage(data.value, RecentActivities(data.value.activities)) else Blank
    }

    /** `saveUsers`: write the whole map through to storage, then adopt it. */
    method SaveUsers(updated: map<string, User>)
      modifies this
      ensures storedUsers == Some(updated) && users == updated
      ensures view == old(view) && currentUser == old(currentUser) && error == old(error)
      ensures storedSession == old(storedSession)
    {
      storedUsers := Some(updated);
      users := updated;
    }

    /** `createSession`: overwrite the session key and sign the email in. */
    method CreateSession(email: string, loginTime: string)
      modifies this
      ensures storedSession == Some(Session(email, loginTime)) && currentUser == Some(email)
      ensures view == old(view) && users == old(users) && error == old(error)
      ensures storedUsers == old(storedUsers)
    {
      storedSession := Some(Session(email, loginTime));
      currentUser := Some(email);
    }

    /** A view button or link, clicked on the page that shows it; the two
        cross links also clear the banner. */
    method Click(c: Control)
      requires Offered(view, c)
      modifies this`view, this`error
      ensures view == Destination(c)
      ensures error == (if c == CreateAccountLink || c == SignInLink then "" else old(error))
    {
      view := Destination(c);
      if c == CreateAccountLink || c == SignInLink {
        error := "";
      }
    }

    /** `handleSignup`. A rejection sets its banner and changes nothing else;
        an acceptance inserts exactly the new record, writes it through and
        opens a session for the email. */
    method HandleSignup(firstName: string, lastName: string, email: string, password: string,
                        confirmPassword: string, createdAt: string, activityTime: string,
                        loginTime: string)
      requires Valid()
      modifies this
      ensures Valid()
      ensures view == old(view)
      ensures old(CheckSignup(users, email, password, confirmPassword)).Some? ==>
        && error == Message(old(CheckSignup(users, email, password, confirmPassword)).value)
        && users == old(users) && currentUser == old(currentUser)
        && storedUsers == old(storedUsers) && storedSession == old(storedSession)
      ensures old(CheckSignup(users, email, password, confirmPassword)).None? ==>
        && error == ""
        && email !in old(users)
        && users == old(users)[email := NewUser(firstName, lastName, email, password, createdAt, activityTime)]
        && storedUsers == Some(users)
        && storedSession == Some(Session(email, loginTime)) && currentUser == Some(email)
        && SessionResolves()
      ensures old(CheckSignup(users, email, password, confirmPassword)).Some? ==>
        GetUserData() == old(GetUserData())
      ensures old(CheckSignup(users, email, password, confirmPassword)).None? && email != "" ==>
        && GetUserData() == Some(users[email])
        && |GetUserData().value.orders| == 0 && |GetUserData().value.addresses| == 0
        && |GetUserData().value.activities| == 1
      ensures old(StoreSound(users)) ==> StoreSound(users)
    {
      error := "";
      var rejection := CheckSignup(users, email, password, confirmPassword);
      if rejection.Some? {
        error := Message(rejection.value);
        return;
      }
      var newUser := NewUser(firstName, lastName, email, password, createdAt, activityTime);
      SaveUsers(users[email := newUser]);
      CreateSession(email, loginTime);
    }

    /** `handleSignin`. A missing account or a wrong password sets its banner
        and changes nothing else; a match logs a `login` event at the front of
        that record's log, writes it through and opens a session. */
    method HandleSignin(email: string, password: string, activityId: int, activityTime: string,
                        loginTime: string)
      requires Valid()
      modifies this
      ensures Valid()
      ensures view == old(view)
      ensures old(CheckSignin(users, email, password)).Some? ==>
        && error == Message(old(CheckSignin(users, email, password)).value)
        && users == old(users) && currentUser == old(currentUser)
        && storedUsers == old(storedUsers) && storedSession == old(storedSession)
      ensures old(CheckSignin(users, email, password)).None? ==>
        && error == ""
        && email in old(users)
        && users == old(users)[email := LogActivity(old(users)[email],
                                                     Activity(activityId, Login, "Signed in to account", activityTime))]
        && storedUsers == Some(users)
        && storedSession == Some(Session(email, loginTime)) && currentUser == Some(email)
        && SessionResolves()
      ensures old(CheckSignin(users, email, password)).Some? ==> GetUserData() == old(GetUserData())
      ensures old(CheckSignin(users, email, password)).None? && email != "" ==>
        && GetUserData() == Some(users[email])
        && |GetUserData().value.activities| == |old(users)[email].activities| + 1
        && GetUserData().value.activities[0].kind == Login
      ensures old(StoreSound(users)) ==> StoreSound(users)
    {
      error := "";
      var rejection := CheckSignin(users, email, password);
      if rejection.Some? {
        error := Message(rejection.value);
        return;
      }
      var user := users[email];
      var updated := LogActivity(user, Activity(activityId, Login, "Signed in to account", activityTime));
      SaveUsers(users[email := updated]);
      CreateSession(email, loginTime);
    }

    /** `handleLogout`. With someone signed in, a `logout` event goes to the
        front of their log and the map is written through; in every case the
        session key is removed, nobody is signed in and the landing view opens. */
    method HandleLogout(activityId: int, activityTime: string)
      requires Valid()
      requires SessionResolves()
      modifies this
      ensures Valid() && SessionResolves()
      ensures storedSession == None && currentUser == None && view == Landing
      ensures GetUserData() == None
      ensures error == old(error)
      ensures old(LoggedIn()) ==>
        && users == old(users)[old(currentUser.value) :=
                               LogActivity(old(users[currentUser.value]),
                                           Activity(activityId, Logout, "Signed out of account", activityTime))]
        && storedUsers == Some(users)
      ensures !old(LoggedIn()) ==> users == old(users) && storedUsers == old(storedUsers)
      ensures old(StoreSound(users)) ==> StoreSound(users)
    {
      if LoggedIn() {
        var key := currentUser.value;
        var user := users[key];
        var updated := LogActivity(user, Activity(activityId, Logout, "Signed out of account", activityTime));
        SaveUsers(users[key := updated]);
      }
      storedSession := None;
      currentUser := None;
      view := Landing;
    }

    /** `addSampleOrder`. Nobody signed in: nothing happens. Otherwise the
        sample order goes to the front of the user's orders, an `order_placed`
        event naming it to the front of their log, and the map is written
        through. */
    method AddSampleOrder(orderStamp: nat, orderDate: string, activityId: int, activityTime: string)
      requires Valid()
      requires SessionResolves()
      modifies this
      ensures Valid() && SessionResolves()
      ensures view == old(view) && error == old(error)
      ensures currentUser == old(currentUser) && storedSession == old(storedSession)
      ensures !old(LoggedIn()) ==> users == old(users) && storedUsers == old(storedUsers)
      ensures !old(LoggedIn()) ==> GetUserData() == None
      ensures old(LoggedIn()) ==>
        && GetUserData().Some?
        && |GetUserData().value.orders| == |old(GetUserData()).value.orders| + 1
        && |GetUserData().value.activities| == |old(GetUserData()).value.activities| + 1
        && GetUserData().value.orders[0] == SampleOrder(orderStamp, orderDate)
        && GetUserData().value.activities[0].kind == OrderPlaced
      ensures old(LoggedIn()) ==>
        var order := SampleOrder(orderStamp, orderDate);
        && users == old(users)[old(currentUser.value) :=
                               PlaceOrder(old(users[currentUser.value]), order,
                                          Activity(activityId, OrderPlaced, "Order placed - " + order.id,
                                                   activityTime))]
        && storedUsers == Some(users)
      ensures old(StoreSound(users)) ==> StoreSound(users)
    {
      if !LoggedIn() {
        return;
      }
      var key := currentUser.value;
      var user := users[key];
      var order := SampleOrder(orderStamp, orderDate);
      var updated := PlaceOrder(user, order,
                                Activity(activityId, OrderPlaced, "Order placed - " + order.id, activityTime));
      SaveUsers(users[key := updated]);
    }
  }
}
