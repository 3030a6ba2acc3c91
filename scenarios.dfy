/** Client walks over the methods of `AuthSystem`, proved from their
    contracts alone: a fresh store, a signup, rejected attempts, a sample
    order, a logout and a signin. They call `AddSampleOrder` and
    `HandleLogout` while the view is not `Dashboard`; in the component those
    buttons sit on the dashboard, which no state change opens, so the
    component itself never makes these calls in this order. */
module Scenarios {
  import opened Records
  import opened Valencire

  method SignupThenOrder() {
    var app := new AuthSystem(None, None);
    app.Click(CreateAccountButton);
    assert app.view == SignUp;

    app.HandleSignup("A", "B", "a@b.com", "password1", "password1", "t0", "t0", "t0");
    assert app.error == "" && app.currentUser == Some("a@b.com");
    assert app.storedSession == Some(Session("a@b.com", "t0"));
    var u := app.users["a@b.com"];
    assert |u.orders| == 0 && |u.addresses| == 0 && |u.activities| == 1;
    assert u.activities[0].kind == AccountCreated;
    assert app.GetUserData() == Some(u);
    // The handler redirects instead of opening the dashboard.
    assert app.view == SignUp;

    app.HandleSignup("C", "D", "c@d.com", "short", "short", "t1", "t1", "t1");
    assert app.error == Message(PasswordTooShort);
    assert "c@d.com" !in app.users && app.currentUser == Some("a@b.com");

    app.HandleSignup("A", "B", "a@b.com", "password2", "password2", "t1", "t1", "t1");
    assert app.error == Message(EmailTaken);
    assert app.users["a@b.com"] == u;

    app.AddSampleOrder(1700000000000, "t2", 1700000000000, "t2");
    u := app.users["a@b.com"];
    assert |u.orders| == 1 && u.orders[0].total == 1800;
    assert |u.activities| == 2 && u.activities[0].kind == OrderPlaced;

    app.HandleLogout(1700000000001, "t3");
    assert app.currentUser == None && app.storedSession == None && app.view == Landing;
    assert |app.users["a@b.com"].activities| == 3;

    app.AddSampleOrder(1700000000002, "t4", 1700000000002, "t4");
    assert |app.users["a@b.com"].orders| == 1;
  }

  method SigninPaths() {
    var app := new AuthSystem(None, None);
    app.HandleSignup("A", "B", "a@b.com", "password1", "password1", "t0", "t0", "t0");
    app.HandleLogout(2, "t1");

    app.HandleSignin("x@y.com", "password1", 3, "t2", "t2");
    assert app.error == Message(AccountNotFound) && app.storedSession == None;

    app.HandleSignin("a@b.com", "Password1", 4, "t3", "t3");
    assert app.error == Message(IncorrectPassword) && app.currentUser == None;

    app.HandleSignin("a@b.com", "password1", 5, "t4", "t4");
    assert app.error == "" && app.currentUser == Some("a@b.com");
    var u := app.users["a@b.com"];
    assert |u.activities| == 3 && u.activities[0].kind == Login && u.activities[1].kind == Logout;
    assert app.storedUsers == Some(app.users);
  }
}
