/**
 * The account router (authRoutes.js): registration with a normalised, unique
 * email, and login that answers every failed match with the same reply.
 * Passwords are stored and compared as given.
 */
module Auth {
  import opened Wrappers
  import opened Http
  import opened Json
  import opened Text
  import opened Tables

  const FIELDS_REQUIRED := "Name, email and password are required"
  const EMAIL_TAKEN := "An account with this email already exists"
  const CREDENTIALS_REQUIRED := "Email and password are required"
  const BAD_CREDENTIALS := "Incorrect email or password"

  datatype User = User(name: string, email: string, password: string)

  /** What both routes send back; the email doubles as the id. */
  datatype Profile = Profile(id: string, name: string, email: string)

  function ProfileOf(u: User): Profile {
    Profile(u.email, u.name, u.email)
  }

  /** `String(email).trim().toLowerCase()`, given `String(email)`: no longer
      than the input, without ASCII capitals, and empty exactly when the input
      is all whitespace. */
  function NormalizeEmail(s: string): (r: string)
    ensures |r| <= |s|
    ensures forall k :: 0 <= k < |r| ==> !IsAsciiUpper(r[k])
    ensures r == [] <==> AllWhitespace(s)
  {
    TrimMeaning(s);
    ToLower(Trim(s))
  }

  /** Normalising twice gives what normalising once gives. */
  lemma {:induction false} NormalizeEmailIdempotent(s: string)
    ensures NormalizeEmail(NormalizeEmail(s)) == NormalizeEmail(s)
  {
    var t := Trim(s);
    TrimOfLower(t);
    TrimIdempotent(s);
    ToLowerIdempotent(t);
  }

  /** An email typed with other ASCII letter case and whitespace around it
      normalises to the same address. */
  lemma {:induction false} EmailVariantsNormalizeAlike(a: string, b: string, w1: string, w2: string)
    requires CaseVariants(a, b) && AllWhitespace(w1) && AllWhitespace(w2)
    ensures NormalizeEmail(w1 + a + w2) == NormalizeEmail(b)
  {
    TrimIgnoresPadding(w1, a, w2);
    TrimOfLower(a);
    TrimOfLower(b);
    CaseVariantsLowerAlike(a, b);
  }

  function HasEmail(email: string): User -> bool {
    (u: User) => u.email == email
  }

  /** No two accounts share an email. */
  predicate EmailsUnique(users: seq<User>) {
    forall i, j :: 0 <= i < j < |users| ==> users[i].email != users[j].email
  }

  /** `User.findOne` on a record appended after a failed search finds it. */
  lemma {:induction false} FindAppended(users: seq<User>, u: User, p: User -> bool)
    requires FindFirst(users, p).None? && p(u)
    ensures FindFirst(users + [u], p) == Some(u)
  {
    FindFirstAt(users + [u], p, |users|);
  }

  /** POST /register. */
  function RegisterUser(users: seq<User>, body: Body): (o: (Reply<Profile>, seq<User>))
    ensures !Truthy(Field(body, "name")) || !Truthy(Field(body, "email")) || !Truthy(Field(body, "password")) ==>
              o == (Error(BAD_REQUEST, FIELDS_REQUIRED), users)
    ensures Truthy(Field(body, "name")) && Truthy(Field(body, "email")) && Truthy(Field(body, "password")) ==>
              var e := NormalizeEmail(ToText(Field(body, "email")));
              && ((exists k :: 0 <= k < |users| && users[k].email == e) ==>
                    o == (Error(CONFLICT, EMAIL_TAKEN), users))
              && ((forall k :: 0 <= k < |users| ==> users[k].email != e) ==>
                    var u := User(Trim(ToText(Field(body, "name"))), e, ToText(Field(body, "password")));
                    o == (Ok(CREATED, Profile(e, u.name, e)), users + [u]))
    ensures EmailsUnique(users) ==> EmailsUnique(o.1)
  {
    var name, email, password := Field(body, "name"), Field(body, "email"), Field(body, "password");
    if !Truthy(name) || !Truthy(email) || !Truthy(password) then (Error(BAD_REQUEST, FIELDS_REQUIRED), users)
    else
      var e := NormalizeEmail(ToText(email));
      if FindFirst(users, HasEmail(e)).Some? then (Error(CONFLICT, EMAIL_TAKEN), users)
      else
        var u := User(Trim(ToText(name)), e, ToText(password));
        (Ok(CREATED, ProfileOf(u)), users + [u])
  }

  /** POST /login: an unknown email and a wrong password get the same 401. */
  function LoginUser(users: seq<User>, body: Body): (r: Reply<Profile>)
    ensures !Truthy(Field(body, "email")) || !Truthy(Field(body, "password")) ==>
              r == Error(BAD_REQUEST, CREDENTIALS_REQUIRED)
    ensures Truthy(Field(body, "email")) && Truthy(Field(body, "password")) ==>
              var u := FindFirst(users, HasEmail(NormalizeEmail(ToText(Field(body, "email")))));
              && (r.Ok? <==> u.Some? && u.value.password == ToText(Field(body, "password")))
              && (r.Ok? ==> r == Ok(OK, ProfileOf(u.value)) && u.value in users)
              && (!r.Ok? ==> r == Error(UNAUTHORIZED, BAD_CREDENTIALS))
  {
    var email, password := Field(body, "email"), Field(body, "password");
    if !Truthy(email) || !Truthy(password) then Error(BAD_REQUEST, CREDENTIALS_REQUIRED)
    else
      match FindFirst(users, HasEmail(NormalizeEmail(ToText(email))))
      case None => Error(UNAUTHORIZED, BAD_CREDENTIALS)
      case Some(u) => if u.password != ToText(password) then Error(UNAUTHORIZED, BAD_CREDENTIALS) else Ok(OK, ProfileOf(u))
  }

  /** With unique emails, login succeeds exactly when some account has the
      normalised email and the password. */
  lemma {:induction false} LoginMatchesSomeAccount(users: seq<User>, body: Body)
    requires EmailsUnique(users)
    requires Truthy(Field(body, "email")) && Truthy(Field(body, "password"))
    ensures LoginUser(users, body).Ok? <==>
              exists k :: 0 <= k < |users| && users[k].email == NormalizeEmail(ToText(Field(body, "email")))
                                           && users[k].password == ToText(Field(body, "password"))
  {
    var e := NormalizeEmail(ToText(Field(body, "email")));
    var f := FindFirst(users, HasEmail(e));
    if f.Some? {
      var i :| 0 <= i < |users| && users[i] == f.value;
      assert forall k :: 0 <= k < |users| && users[k].email == e ==> k == i;
    }
  }

  /** The registration calls in order, threading the account table through. */
  function RegisterAll(users: seq<User>, bodies: seq<Body>): (r: seq<User>)
    decreases |bodies|
  {
    if bodies == [] then users else RegisterAll(RegisterUser(users, bodies[0]).1, bodies[1..])
  }

  /** However many registrations run, no two accounts end up sharing an email. */
  lemma {:induction false} RegisterAllKeepsEmailsUnique(users: seq<User>, bodies: seq<Body>)
    requires EmailsUnique(users)
    ensures EmailsUnique(RegisterAll(users, bodies))
    decreases |bodies|
  {
    if bodies != [] {
      RegisterAllKeepsEmailsUnique(RegisterUser(users, bodies[0]).1, bodies[1..]);
    }
  }

  /** Registering the same body again is refused as a duplicate. */
  lemma {:induction false} RegisterTwiceConflicts(users: seq<User>, body: Body)
    requires RegisterUser(users, body).0.Ok?
    ensures RegisterUser(RegisterUser(users, body).1, body) ==
              (Error(CONFLICT, EMAIL_TAKEN), RegisterUser(users, body).1)
  {
    var after := RegisterUser(users, body).1;
    assert after[|after| - 1].email == NormalizeEmail(ToText(Field(body, "email")));
  }

  /** After registering, logging in with the same password and any email that
      normalises to the registered address returns what register returned. */
  lemma {:induction false} RegisterThenLogin(users: seq<User>, body: Body, login: Body)
    requires RegisterUser(users, body).0.Ok?
    requires Truthy(Field(login, "email"))
    requires NormalizeEmail(ToText(Field(login, "email"))) == NormalizeEmail(ToText(Field(body, "email")))
    requires Field(login, "password") == Field(body, "password")
    ensures LoginUser(RegisterUser(users, body).1, login) == Ok(OK, RegisterUser(users, body).0.value)
  {
    var e := NormalizeEmail(ToText(Field(body, "email")));
    var u := User(Trim(ToText(Field(body, "name"))), e, ToText(Field(body, "password")));
    assert FindFirst(users, HasEmail(e)).None?;
    FindAppended(users, u, HasEmail(e));
  }

  /** In particular, the registered email with its whitespace stripped, in any
      ASCII letter case and with any whitespace around it, logs in. */
  lemma {:induction false} RegisterThenLoginWithVariant(users: seq<User>, body: Body, login: Body, a: string, w1: string, w2: string)
    requires RegisterUser(users, body).0.Ok?
    requires CaseVariants(a, Trim(ToText(Field(body, "email")))) && AllWhitespace(w1) && AllWhitespace(w2)
    requires Field(login, "email") == Str(w1 + a + w2) && w1 + a + w2 != []
    requires Field(login, "password") == Field(body, "password")
    ensures LoginUser(RegisterUser(users, body).1, login) == Ok(OK, RegisterUser(users, body).0.value)
  {
    var raw := ToText(Field(body, "email"));
    EmailVariantsNormalizeAlike(a, Trim(raw), w1, w2);
    TrimIdempotent(raw);
    RegisterThenLogin(users, body, login);
  }

  /** The email register returns logs in as it is. */
  lemma {:induction false} LoginWithReturnedEmail(users: seq<User>, body: Body, login: Body)
    requires RegisterUser(users, body).0.Ok?
    requires Field(login, "email") == Str(RegisterUser(users, body).0.value.email)
    requires RegisterUser(users, body).0.value.email != []
    requires Field(login, "password") == Field(body, "password")
    ensures LoginUser(RegisterUser(users, body).1, login) == Ok(OK, RegisterUser(users, body).0.value)
  {
    NormalizeEmailIdempotent(ToText(Field(body, "email")));
    RegisterThenLogin(users, body, login);
  }

  /** The account collection. */
  class UserStore {
    var users: seq<User>

    ghost predicate Valid()
      reads this
    {
      EmailsUnique(users)
    }

    constructor ()
      ensures Valid() && users == []
    {
      users := [];
    }

    /** POST /register: `User.findOne`, then `User.create` when nobody has the
        email. */
    method Register(body: Body) returns (r: Reply<Profile>)
      requires Valid()
      modifies this
      ensures Valid()
      ensures (r, users) == RegisterUser(old(users), body)
    {
      var name, email, password := Field(body, "name"), Field(body, "email"), Field(body, "password");
      if !Truthy(name) || !Truthy(email) || !Truthy(password) {
        return Error(BAD_REQUEST, FIELDS_REQUIRED);
      }
      var e := NormalizeEmail(ToText(email));
      var i := IndexWhere(users, HasEmail(e));
      if i >= 0 {
        return Error(CONFLICT, EMAIL_TAKEN);
      }
      var u := User(Trim(ToText(name)), e, ToText(password));
      users := users + [u];
      r := Ok(CREATED, ProfileOf(u));
    }

    /** POST /login. */
    method Login(body: Body) returns (r: Reply<Profile>)
      ensures r == LoginUser(users, body)
    {
      var email, password := Field(body, "email"), Field(body, "password");
      if !Truthy(email) || !Truthy(password) {
        return Error(BAD_REQUEST, CREDENTIALS_REQUIRED);
      }
      var i := IndexWhere(users, HasEmail(NormalizeEmail(ToText(email))));
      if i < 0 || users[i].password != ToText(password) {
        return Error(UNAUTHORIZED, BAD_CREDENTIALS);
      }
      r := Ok(OK, ProfileOf(users[i]));
    }
  }
}
