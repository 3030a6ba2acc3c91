/** The values the account store keeps: user records keyed by email, their
    orders and activity log, the persisted session, and the pure record
    updates that the handlers build with object and array spreads. */
module Records {
  import opened Numbers

  datatype Option<T> = None | Some(value: T)

  datatype ActivityKind = AccountCreated | Login | Logout | OrderPlaced

  /** One entry of a user's activity log; logs are kept newest first. */
  datatype Activity = Activity(id: int, kind: ActivityKind, description: string, timestamp: string)

  datatype Item = Item(name: string, size: string, quantity: int, price: int)

  datatype Order = Order(id: string, date: string, items: seq<Item>, total: int, status: string,
                         shippingAddress: string)

  datatype Address = Address(title: string, line: string, city: string, region: string, pincode: string)

  datatype Preferences = Preferences(notifications: bool, newsletter: bool)

  datatype User = User(firstName: string, lastName: string, email: string, password: string,
                       createdAt: string, orders: seq<Order>, addresses: seq<Address>,
                       activities: seq<Activity>, preferences: Preferences)

  /** The record stored under the session key. */
  datatype Session = Session(email: string, loginTime: string)

  const MinPasswordLength: nat := 6
  const RecentLimit: nat := 20
  const SampleTotal: int := 1800

  // ---------------------------------------------------------------------
  // Orders

  /** Sum of price times quantity over the items of an order. */
  function ItemsTotal(items: seq<Item>): int {
    if items == [] then 0 else items[0].price * items[0].quantity + ItemsTotal(items[1..])
  }

  /** An order whose stated total is what its items add up to. */
  predicate Priced(o: Order) {
    o.total == ItemsTotal(o.items)
  }

  /** The id `ORD-<Date.now()>` of an order placed at `stamp`. */
  function OrderId(stamp: nat): (id: string)
    ensures |id| > 4 && id[..4] == "ORD-" && AllDigits(id[4..])
  {
    "ORD-" + Decimal(stamp)
  }

  /** Orders placed at different instants get different ids. */
  lemma OrderIdInjective(a: nat, b: nat)
    requires OrderId(a) == OrderId(b)
    ensures a == b
  {
    assert OrderId(a)[4..] == Decimal(a);
    assert OrderId(b)[4..] == Decimal(b);
    DecimalInjective(a, b);
  }

  /** The one fixed order the dashboard's "add sample" button places. */
  function SampleOrder(stamp: nat, date: string): (o: Order)
    ensures Priced(o) && o.total == SampleTotal
    ensures o.id == OrderId(stamp) && o.date == date && |o.items| == 1
  {
    Order(OrderId(stamp), date, [Item("AMETHYST NOIR\U{2122}", "M", 1, 1800)], 1800, "Processing",
          "123 Fashion Street, Mumbai, MH 400001")
  }

  // ---------------------------------------------------------------------
  // User records

  /** A record as this component builds it: keyed by its own email, its
      oldest activity is the account creation, and every order is priced. */
  predicate Sound(u: User, key: string) {
    && u.email == key
    && |u.activities| > 0
    && u.activities[|u.activities| - 1].kind == AccountCreated
    && forall i :: 0 <= i < |u.orders| ==> Priced(u.orders[i])
  }

  /** Every record of the store is sound under its key. */
  predicate StoreSound(users: map<string, User>) {
    forall k :: k in users ==> Sound(users[k], k)
  }

  /** The record a successful signup inserts. */
  function NewUser(firstName: string, lastName: string, email: string, password: string,
                   createdAt: string, activityTime: string): (u: User)
    ensures Sound(u, email)
    ensures u.password == password && u.firstName == firstName && u.lastName == lastName
    ensures u.createdAt == createdAt
    ensures u.orders == [] && u.addresses == []
    ensures |u.activities| == 1 && u.activities[0].id == 1 && u.activities[0].kind == AccountCreated
    ensures u.activities[0].timestamp == activityTime
    ensures u.preferences == Preferences(true, false)
  {
    User(firstName, lastName, email, password, createdAt, [], [],
         [Activity(1, AccountCreated, "Account created", activityTime)], Preferences(true, false))
  }

  /** `{...user, activities: [a, ...user.activities]}`. */
  function LogActivity(u: User, a: Activity): (r: User)
    ensures |r.activities| == |u.activities| + 1
    ensures r.activities[0] == a && r.activities[1..] == u.activities
    ensures r.(activities := u.activities) == u
  {
    u.(activities := [a] + u.activities)
  }

  /** `{...user, orders: [o, ...user.orders], activities: [a, ...user.activities]}`. */
  function PlaceOrder(u: User, o: Order, a: Activity): (r: User)
    ensures |r.orders| == |u.orders| + 1 && |r.activities| == |u.activities| + 1
    ensures r.orders[0] == o && r.orders[1..] == u.orders
    ensures r.activities[0] == a && r.activities[1..] == u.activities
    ensures r.(orders := u.orders, activities := u.activities) == u
  {
    u.(orders := [o] + u.orders, activities := [a] + u.activities)
  }

  /** Logging an activity keeps a record sound. */
  lemma LogActivityKeepsSound(u: User, a: Activity, key: string)
    requires Sound(u, key)
    ensures Sound(LogActivity(u, a), key)
  {
  }

  /** Placing a priced order keeps a record sound. */
  lemma PlaceOrderKeepsSound(u: User, o: Order, a: Activity, key: string)
    requires Sound(u, key) && Priced(o)
    ensures Sound(PlaceOrder(u, o, a), key)
  {
  }

  /** Replacing one record by a sound one keeps the store sound. */
  lemma UpdateKeepsStoreSound(users: map<string, User>, key: string, u: User)
    requires StoreSound(users) && Sound(u, key)
    ensures StoreSound(users[key := u])
  {
  }

  /** `activities.slice(0, 20)`: the most recent entries the dashboard lists. */
  function RecentActivities(acts: seq<Activity>): (r: seq<Activity>)
    ensures |r| == (if |acts| < RecentLimit then |acts| else RecentLimit)
    ensures forall i :: 0 <= i < |r| ==> r[i] == acts[i]
  {
    if |acts| < RecentLimit then acts else acts[..RecentLimit]
  }

  /** After an event is logged, the list shows it first and slides the
      earlier entries down by one, dropping the twentieth. */
  lemma RecentAfterLog(acts: seq<Activity>, a: Activity)
    ensures RecentActivities([a] + acts)
         == [a] + acts[..if |acts| < RecentLimit - 1 then |acts| else RecentLimit - 1]
  {
  }

  // ---------------------------------------------------------------------
  // Form validation

  datatype AuthError = PasswordMismatch | PasswordTooShort | EmailTaken | AccountNotFound | IncorrectPassword

  /** The text the error banner shows. */
  function Message(e: AuthError): (m: string)
    ensures m != ""
  {
    match e
    case PasswordMismatch => "Passwords do not match!"
    case PasswordTooShort => "Password must be at least 6 characters!"
    case EmailTaken => "Email already registered!"
    case AccountNotFound => "Account not found. Please create an account."
    case IncorrectPassword => "Incorrect password!"
  }

  /** Each rejection has its own banner text, so the banner tells apart an
      unknown email from a wrong password. */
  lemma MessagesDistinct(e1: AuthError, e2: AuthError)
    requires e1 != e2
    ensures Message(e1) != Message(e2)
  {
  }

  /** The signup checks, in the order the handler makes them: confirmation,
      then length, then an existing record for the email. */
  function CheckSignup(users: map<string, User>, email: string, password: string,
                       confirmPassword: string): (r: Option<AuthError>)
    ensures r == Some(PasswordMismatch) <==> password != confirmPassword
    ensures r == Some(PasswordTooShort) <==> password == confirmPassword && |password| < MinPasswordLength
    ensures r == Some(EmailTaken)
        <==> password == confirmPassword && |password| >= MinPasswordLength && email in users
    ensures r == None
        <==> password == confirmPassword && |password| >= MinPasswordLength && email !in users
  {
    if password != confirmPassword then Some(PasswordMismatch)
    else if |password| < MinPasswordLength then Some(PasswordTooShort)
    else if email in users then Some(EmailTaken)
    else None
  }

  /** The signin checks: a record for the email, then exact password equality. */
  function CheckSignin(users: map<string, User>, email: string, password: string): (r: Option<AuthError>)
    ensures r == None <==> email in users && users[email].password == password
    ensures r == Some(AccountNotFound) <==> email !in users
    ensures r == Some(IncorrectPassword) <==> email in users && users[email].password != password
  {
    if email !in users then Some(AccountNotFound)
    else if users[email].password != password then Some(IncorrectPassword)
    else None
  }
}
