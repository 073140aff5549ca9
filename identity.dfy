/**
 * Identity and session logic of the `App` component: credential lookup for `handleLogin`
 * (App.tsx:2033-2041), the duplicate check and new account of `handleRegister`
 * (App.tsx:2043-2055), and the `role.includes('ADMIN')` test that decides the admin view.
 */
module Identity {
  import opened Wrappers
  import opened Types
  import opened Seqs
  import opened Text

  /** `u.email === email && u.password === pass`; an account without a password never matches. */
  predicate HasCredentials(u: User, email: string, pass: string)
  {
    u.email == email && u.password == Some(pass)
  }

  function Credentials(email: string, pass: string): (r: User -> bool)
  {
    (u: User) => HasCredentials(u, email, pass)
  }

  /** The account `handleLogin` signs in, if any (App.tsx:2034). */
  function FindUser(users: seq<User>, email: string, pass: string): (r: Option<User>)
  {
    Find(users, Credentials(email, pass))
  }

  /** `users.find(u => u.email === email)` is truthy (App.tsx:2044). */
  predicate EmailTaken(users: seq<User>, email: string)
  {
    Find(users, (u: User) => u.email == email).Some?
  }

  /** The account `handleRegister` creates (App.tsx:2045-2051). */
  function NewCustomer(id: string, name: string, email: string, pass: string): (r: User)
  {
    User(id, name, email, Customer, Some(pass))
  }

  /** The role as the string stored in the source (types.ts:37). */
  function RoleName(role: UserRole): (r: string)
  {
    match role
    case SuperAdmin => "SUPER_ADMIN"
    case ShopAdmin => "SHOP_ADMIN"
    case Customer => "CUSTOMER"
  }

  /** `role.includes('ADMIN')` (App.tsx:2037, 2132). */
  predicate IsAdminRole(role: UserRole)
  {
    Contains(RoleName(role), "ADMIN")
  }

  /** The view `handleLogin` opens after a successful sign-in (App.tsx:2037). */
  function LandingView(role: UserRole): (r: ViewState)
  {
    if IsAdminRole(role) then Admin else Home
  }

  /** Whether `App` renders the admin dashboard (App.tsx:2132). */
  predicate ShowsAdminDashboard(view: ViewState, current: Option<User>)
  {
    view == Admin && current.Some? && IsAdminRole(current.value.role)
  }

  ghost predicate UniqueEmails(users: seq<User>)
  {
    forall i, j :: 0 <= i < j < |users| ==> users[i].email != users[j].email
  }

  /** The substring test singles out exactly the two administrator roles. */
  lemma {:induction false} AdminRoles(role: UserRole)
    ensures IsAdminRole(role) <==> role != Customer
    ensures LandingView(role) == if role == Customer then Home else Admin
  {
    match role
    case SuperAdmin =>
      SuperAdminIsAdmin();
    case ShopAdmin =>
      ShopAdminIsAdmin();
    case Customer =>
      CustomerIsNotAdmin();
  }

  lemma {:induction false} SuperAdminIsAdmin()
    ensures Contains("SUPER_ADMIN", "ADMIN")
  {
    var s, t := "SUPER_ADMIN", "ADMIN";
    assert s[6..11] == t;
    OccurrenceIsContained(s, t, 6);
  }

  lemma {:induction false} ShopAdminIsAdmin()
    ensures Contains("SHOP_ADMIN", "ADMIN")
  {
    var s, t := "SHOP_ADMIN", "ADMIN";
    assert s[5..10] == t;
    OccurrenceIsContained(s, t, 5);
  }

  lemma {:induction false} CustomerIsNotAdmin()
    ensures !Contains("CUSTOMER", "ADMIN")
  {
    var s, t := "CUSTOMER", "ADMIN";
    ContainsIffOccurs(s, t);
    forall i | 0 <= i <= |s| - |t| ensures !OccursAt(s, t, i) {
      assert s[i] != 'A' by {
        assert i == 0 || i == 1 || i == 2 || i == 3;
      }
      assert s[i..i + |t|][0] == s[i];
    }
  }

  /** The admin dashboard shows exactly for a signed-in administrator on the admin view. */
  lemma ShowsAdminDashboardIff(view: ViewState, current: Option<User>)
    ensures ShowsAdminDashboard(view, current) <==>
      view == Admin && current.Some? && current.value.role != Customer
  {
    if current.Some? {
      AdminRoles(current.value.role);
    }
  }

  /** A sign-in succeeds only on an exact email and password match, and fails only when there is none. */
  lemma {:induction false} FindUserSpec(users: seq<User>, email: string, pass: string)
    ensures FindUser(users, email, pass).Some? ==>
      FindUser(users, email, pass).value in users && HasCredentials(FindUser(users, email, pass).value, email, pass)
    ensures FindUser(users, email, pass).None? <==>
      forall k :: 0 <= k < |users| ==> !HasCredentials(users[k], email, pass)
  {
    assert forall u :: Credentials(email, pass)(u) == HasCredentials(u, email, pass);
  }

  /** With unique emails, the owner of an email signs in with their own password. */
  lemma {:induction false} LoginFindsOwner(users: seq<User>, k: nat, pass: string)
    requires UniqueEmails(users) && k < |users| && users[k].password == Some(pass)
    ensures FindUser(users, users[k].email, pass) == Some(users[k])
  {
    FindFirst(users, Credentials(users[k].email, pass), k);
  }

  /** The email check of `handleRegister` is an exact, case-sensitive search of the account list. */
  lemma {:induction false} EmailTakenIff(users: seq<User>, email: string)
    ensures EmailTaken(users, email) <==> exists k :: 0 <= k < |users| && users[k].email == email
  {
    if EmailTaken(users, email) {
      var u := Find(users, (u: User) => u.email == email).value;
      var k :| 0 <= k < |users| && users[k] == u;
    }
  }

  /** Registration keeps emails unique when the email was free. */
  lemma {:induction false} RegisterKeepsEmailsUnique(users: seq<User>, id: string, name: string, email: string, pass: string)
    requires UniqueEmails(users) && !EmailTaken(users, email)
    ensures UniqueEmails(users + [NewCustomer(id, name, email, pass)])
  {
    EmailTakenIff(users, email);
  }

  /** A freshly registered customer can sign in with the email and password just given. */
  lemma {:induction false} RegisterThenLogin(users: seq<User>, id: string, name: string, email: string, pass: string)
    requires !EmailTaken(users, email)
    ensures FindUser(users + [NewCustomer(id, name, email, pass)], email, pass) == Some(NewCustomer(id, name, email, pass))
  {
    EmailTakenIff(users, email);
    FindUserSpec(users, email, pass);
    FindAppend(users, [NewCustomer(id, name, email, pass)], Credentials(email, pass));
  }
}
