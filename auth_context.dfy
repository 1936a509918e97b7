/** The sign-in state (src/contexts/AuthContext.tsx): one `user` field,
    set by a successful login to the first demo account whose email and
    password both match (without its password), and cleared by logout. */
module AuthContext {
  import opened Types
  import MockData

  predicate Matches(u: MockData.DemoUser, email: string, password: string) {
    u.email == email && u.password == password
  }

  /** `users.find(u => u.email === email && u.password === password)`, as the
      index of the first match. */
  function FindUser(users: seq<MockData.DemoUser>, email: string, password: string): (r: Option<nat>)
    ensures r.None? <==> forall i :: 0 <= i < |users| ==> !Matches(users[i], email, password)
    ensures r.Some? ==> r.value < |users| && Matches(users[r.value], email, password) &&
                        forall j :: 0 <= j < r.value ==> !Matches(users[j], email, password)
  {
    if users == [] then None
    else if Matches(users[0], email, password) then Some(0)
    else
      var r := FindUser(users[1..], email, password);
      assert forall i :: 1 <= i < |users| ==> users[i] == users[1..][i - 1];
      if r.Some? then Some(r.value + 1) else None
  }

  /** The user a login with these credentials signs in, if any. */
  function LoginResult(email: string, password: string): (u: Option<User>)
    ensures u.None? <==> forall i :: 0 <= i < |MockData.DemoUsers| ==> !Matches(MockData.DemoUsers[i], email, password)
    ensures u.Some? ==> u.value.email == email &&
                        exists i :: 0 <= i < |MockData.DemoUsers| && MockData.DemoUsers[i].WithoutPassword() == u.value &&
                                    Matches(MockData.DemoUsers[i], email, password)
  {
    var found := FindUser(MockData.DemoUsers, email, password);
    if found.Some? then Some(MockData.DemoUsers[found.value].WithoutPassword()) else None
  }

  /** Each demo account signs in as itself with its own credentials, since
      no two accounts share an email. */
  lemma DemoAccountsSignIn(i: nat)
    requires i < |MockData.DemoUsers|
    ensures var d := MockData.DemoUsers[i];
            LoginResult(d.email, d.password) == Some(d.WithoutPassword())
  {
    var d := MockData.DemoUsers[i];
    var found := FindUser(MockData.DemoUsers, d.email, d.password);
    assert forall j, k :: 0 <= j < k < |MockData.DemoUsers| ==>
             MockData.DemoUsers[j].email != MockData.DemoUsers[k].email;
    assert found == Some(i);
  }

  /** One account's email with another account's password signs nobody in. */
  lemma WrongPasswordRejected()
    ensures forall i, j :: 0 <= i < |MockData.DemoUsers| && 0 <= j < |MockData.DemoUsers| && i != j ==>
              LoginResult(MockData.DemoUsers[i].email, MockData.DemoUsers[j].password) == None
  {
    forall i, j | 0 <= i < |MockData.DemoUsers| && 0 <= j < |MockData.DemoUsers| && i != j
      ensures LoginResult(MockData.DemoUsers[i].email, MockData.DemoUsers[j].password) == None
    {
      var e, p := MockData.DemoUsers[i].email, MockData.DemoUsers[j].password;
      assert forall k :: 0 <= k < |MockData.DemoUsers| ==> !Matches(MockData.DemoUsers[k], e, p);
    }
  }

  class AuthProvider {
    var user: Option<User>

    constructor ()
      ensures user == None
    {
      user := None;
    }

    /** `!!user`. */
    function IsAuthenticated(): (b: bool)
      reads this
      ensures b <==> user.Some?
    {
      user.Some?
    }

    /** Signs in the first matching account; on failure nothing changes. */
    method Login(email: string, password: string) returns (ok: bool)
      modifies this
      ensures ok <==> exists i :: 0 <= i < |MockData.DemoUsers| && Matches(MockData.DemoUsers[i], email, password)
      ensures ok ==> user == LoginResult(email, password) && IsAuthenticated()
      ensures !ok ==> user == old(user)
    {
      var found := FindUser(MockData.DemoUsers, email, password);
      if found.Some? {
        user := Some(MockData.DemoUsers[found.value].WithoutPassword());
        ok := true;
      } else {
        ok := false;
      }
    }

    method Logout()
      modifies this
      ensures user == None && !IsAuthenticated()
    {
      user := None;
    }
  }
}
