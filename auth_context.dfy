/**
  The React session: the signed-in user, the loading flag and the stored
  token. Login checks the credentials against three demo accounts; a token
  found at startup is taken to belong to the demo administrator.
 */
module AuthContext {
  import opened Records
  import opened Seqs

  /** A demo account: the credentials and what the session learns on login. */
  datatype MockAccount = MockAccount(email: string, password: string, role: Role, name: string)

  const MockAccounts: seq<MockAccount> := [
    MockAccount("admin@milk.com", "admin123", Admin, "Admin User"),
    MockAccount("worker@milk.com", "worker123", Worker, "Worker One"),
    MockAccount("customer@milk.com", "customer123", Customer, "John Doe")
  ]

  predicate Matches(email: string, password: string, a: MockAccount) {
    a.email == email && a.password == password
  }

  /** `mockUsers.find(u => u.email === email && u.password === password)`. */
  function FindAccount(email: string, password: string): (r: Option<MockAccount>)
    ensures r.Some? ==> r.value in MockAccounts && r.value.email == email && r.value.password == password
    ensures r.None? <==> forall a :: a in MockAccounts ==> !(a.email == email && a.password == password)
  {
    Find(MockAccounts, a => Matches(email, password, a))
  }

  /** The three demo accounts have distinct emails, so the account a login
      finds is the only one with that email. */
  lemma AccountFoundIsUnique(email: string, password: string, a: MockAccount)
    requires a in MockAccounts && a.email == email && a.password == password
    ensures FindAccount(email, password) == Some(a)
  {
    var accounts := MockAccounts;
    assert accounts[0].email[0] == 'a' && accounts[1].email[0] == 'w' && accounts[2].email[0] == 'c';
    if a == accounts[0] {
      FindAt(accounts, x => Matches(email, password, x), 0);
    } else if a == accounts[1] {
      FindAt(accounts, x => Matches(email, password, x), 1);
    } else {
      FindAt(accounts, x => Matches(email, password, x), 2);
    }
  }

  /** The session user built from a found account. */
  function SessionUser(a: MockAccount, id: string, now: int): (u: User)
    ensures u.email == a.email && u.name == a.name && u.role == a.role && u.id == id
  {
    User(id, a.email, a.name, a.role, None, None, None, now)
  }

  /** The user a stored token is taken to stand for. */
  function MockAdmin(now: int): (u: User)
    ensures u.role == Admin && u.email == "admin@milkdelivery.com" && u.name == "Admin User"
  {
    User("1", "admin@milkdelivery.com", "Admin User", Admin, None, None, None, now)
  }

  /** A stored token counts only when it is a non-empty string. */
  predicate HasToken(token: Option<string>) {
    token.Some? && token.value != ""
  }

  class Session {
    var user: Option<User>
    var loading: bool
    /** The `token` entry of local storage. */
    var token: Option<string>

    /** The provider before its startup effect runs. */
    constructor(storedToken: Option<string>)
      ensures user == None && loading && token == storedToken
    {
      user := None;
      loading := true;
      token := storedToken;
    }

    /** `fetchUserFromToken`: no backend is asked; the user becomes the demo
        administrator and loading ends. */
    method FetchUserFromToken(now: int)
      modifies this
      ensures user == Some(MockAdmin(now)) && !loading && token == old(token)
    {
      user := Some(MockAdmin(now));
      loading := false;
    }

    /** The startup effect: with a stored token the user is fetched, without
        one loading simply ends and nobody is signed in. */
    method Startup(now: int)
      modifies this
      ensures !loading && token == old(token)
      ensures HasToken(token) ==> user == Some(MockAdmin(now))
      ensures !HasToken(token) ==> user == old(user)
    {
      if HasToken(token) {
        FetchUserFromToken(now);
      } else {
        loading := false;
      }
    }

    /** Succeeds exactly when a demo account has both the email and the
        password; the session then holds that account's email, name and role
        and the token 'mock-token'. A failed login changes nothing. */
    method Login(email: string, password: string, freshId: string, now: int) returns (ok: bool)
      modifies this
      ensures ok <==> exists a :: a in MockAccounts && a.email == email && a.password == password
      ensures ok ==> user.Some? && token == Some("mock-token") &&
                     user.value == SessionUser(FindAccount(email, password).value, freshId, now)
      ensures !ok ==> user == old(user) && token == old(token)
      ensures loading == old(loading)
    {
      var foundUser := FindAccount(email, password);
      if foundUser.Some? {
        user := Some(SessionUser(foundUser.value, freshId, now));
        token := Some("mock-token");
        return true;
      }
      return false;
    }

    method Logout()
      modifies this
      ensures user == None && token == None && loading == old(loading)
    {
      user := None;
      token := None;
    }
  }

  /** Each demo account signs in with its own role and name. */
  lemma DemoLogins()
    ensures FindAccount("admin@milk.com", "admin123") == Some(MockAccounts[0]) && MockAccounts[0].role == Admin
    ensures FindAccount("worker@milk.com", "worker123") == Some(MockAccounts[1]) && MockAccounts[1].role == Worker
    ensures FindAccount("customer@milk.com", "customer123") == Some(MockAccounts[2]) && MockAccounts[2].role == Customer
  {
    AccountFoundIsUnique("admin@milk.com", "admin123", MockAccounts[0]);
    AccountFoundIsUnique("worker@milk.com", "worker123", MockAccounts[1]);
    AccountFoundIsUnique("customer@milk.com", "customer123", MockAccounts[2]);
  }

  /** A right email with a wrong password does not sign in. */
  lemma WrongPasswordFails(a: MockAccount, password: string)
    requires a in MockAccounts && password != a.password
    ensures FindAccount(a.email, password).None?
  {
    var accounts := MockAccounts;
    assert accounts[0].email[0] == 'a' && accounts[1].email[0] == 'w' && accounts[2].email[0] == 'c';
  }
}
