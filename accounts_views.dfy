/** Customer accounts: the user record and the registration view, which
    refuses a signed-in caller, mismatched passwords and an email or
    username already taken, and otherwise adds exactly one user. */
module AccountViews {
  import opened Base
  import opened Text

  /** A store user. Every field arrives as a string, which a blank form
      field leaves empty; an absent field is not modelled. Passwords are
      hashed by the framework and are not kept here. */
  datatype User = User(
    id: nat,
    username: string,
    email: string,
    firstName: string,
    lastName: string,
    phoneNumber: string,
    address: string,
    city: string,
    postalCode: string,
    isSuperuser: bool)

  /** The fields of the sign-up form. */
  datatype RegistrationForm = RegistrationForm(
    username: string,
    email: string,
    password1: string,
    password2: string,
    firstName: string,
    lastName: string,
    phoneNumber: string,
    address: string,
    city: string,
    postalCode: string)

  predicate EmailTaken(users: seq<User>, email: string) {
    exists k :: 0 <= k < |users| && users[k].email == email
  }

  predicate UsernameTaken(users: seq<User>, username: string) {
    exists k :: 0 <= k < |users| && users[k].username == username
  }

  /** `BaseUserManager.normalize_email`: when the address, stripped of
      surrounding white space, holds an `@`, the part after the last `@` is
      lower-cased; an address without `@` is kept exactly as given. */
  function NormalizeEmail(email: string): string {
    var s := Strip(email);
    match LastIndexOf(s, '@')
    case None => email
    case Some(k) => s[..k] + "@" + LowerString(s[k + 1..])
  }

  /** A trimmed address whose last `@` is at `k` normalises by lower-casing
      what follows position `k`. */
  lemma NormalizeEmailAt(e: string, k: nat)
    requires IsTrimmed(e) && LastIndexOf(e, '@') == Some(k)
    ensures NormalizeEmail(e) == e[..k] + "@" + LowerString(e[k + 1..])
  {
    StripTrimmed(e);
  }

  /** `local` and `domain` joined by an `@` have no white space at either
      end when `local` does not start with it and `domain` does not end
      with it. */
  lemma JoinedIsTrimmed(e: string, local: string, domain: string)
    requires e == local + "@" + domain
    requires local == [] || !IsSpace(local[0])
    requires domain == [] || !IsSpace(domain[|domain| - 1])
    ensures IsTrimmed(e)
  {
    assert e[0] == if local == [] then '@' else local[0];
    assert e[|e| - 1] == if domain == [] then '@' else domain[|domain| - 1];
  }

  /** The joining `@` is the last one when `domain` has none. */
  lemma JoinedLastAt(e: string, local: string, domain: string)
    requires e == local + "@" + domain
    requires '@' !in domain
    ensures LastIndexOf(e, '@') == Some(|local|)
  {
    var k := |local|;
    forall j | k < j < |e| ensures e[j] != '@' {
      assert e[j] == domain[j - k - 1];
    }
    LastIndexOfAt(e, '@', k);
  }

  /** An address with no white space at either end and no `@` after the one
      between `local` and `domain` keeps its local part and has its domain
      lower-cased. */
  lemma NormalizeJoined(e: string, local: string, domain: string)
    requires e == local + "@" + domain
    requires '@' !in domain
    requires local == [] || !IsSpace(local[0])
    requires domain == [] || !IsSpace(domain[|domain| - 1])
    ensures NormalizeEmail(e) == local + "@" + LowerString(domain)
  {
    JoinedIsTrimmed(e, local, domain);
    JoinedLastAt(e, local, domain);
    JoinedSplitsBack(e, local, domain);
    NormalizeEmailAt(e, |local|);
  }

  /** Cutting a joined address at the joining `@` gives back its parts. */
  lemma JoinedSplitsBack(e: string, local: string, domain: string)
    requires e == local + "@" + domain
    ensures e[..|local|] == local && e[|local| + 1..] == domain
  {
  }

  /** Two addresses whose domains differ only in letter case normalise to
      the same address, so the unique email column refuses the second. */
  lemma DomainCaseInsensitive(local: string, d1: string, d2: string)
    requires '@' !in d1 && '@' !in d2
    requires local == [] || !IsSpace(local[0])
    requires d1 == [] || !IsSpace(d1[|d1| - 1])
    requires d2 == [] || !IsSpace(d2[|d2| - 1])
    requires LowerString(d1) == LowerString(d2)
    ensures NormalizeEmail(local + "@" + d1) == NormalizeEmail(local + "@" + d2)
  {
    NormalizeJoined(local + "@" + d1, local, d1);
    NormalizeJoined(local + "@" + d2, local, d2);
  }

  /** Normalising a normalised address changes nothing, so the addresses
      `create_user` stores are normalised. */
  lemma NormalizeEmailIdempotent(email: string, m: string)
    requires m == NormalizeEmail(email)
    ensures NormalizeEmail(m) == m
  {
    var s := Strip(email);
    var i := LastIndexOf(s, '@');
    if i.Some? {
      var k := i.value;
      var local, domain := s[..k], LowerString(s[k + 1..]);
      assert m == local + "@" + domain;
      NormalizedParts(s, k);
      LowerStringIdempotent(s[k + 1..]);
      JoinedLowerIsNormalized(m, local, domain);
    }
  }

  /** An address joined from a local part and a lower-case domain, meeting
      what `NormalizeJoined` asks, normalises to itself. */
  lemma JoinedLowerIsNormalized(m: string, local: string, domain: string)
    requires m == local + "@" + domain
    requires '@' !in domain
    requires local == [] || !IsSpace(local[0])
    requires domain == [] || !IsSpace(domain[|domain| - 1])
    requires LowerString(domain) == domain
    ensures NormalizeEmail(m) == m
  {
    NormalizeJoined(m, local, domain);
  }

  /** The parts of a stripped address around its last `@`, the second
      lower-cased, meet what `NormalizeJoined` asks of them. */
  lemma NormalizedParts(s: string, k: nat)
    requires k < |s| && IsTrimmed(s)
    requires forall j :: k < j < |s| ==> s[j] != '@'
    ensures var local, domain := s[..k], LowerString(s[k + 1..]);
      && '@' !in domain
      && (local == [] || !IsSpace(local[0]))
      && (domain == [] || !IsSpace(domain[|domain| - 1]))
  {
    var domain := LowerString(s[k + 1..]);
    forall j | 0 <= j < |domain| ensures domain[j] != '@' {
      assert domain[j] == Lower(s[k + 1 + j]);
    }
    if domain != [] {
      assert domain[|domain| - 1] == Lower(s[|s| - 1]);
    }
  }

  /** The user `create_user` makes from the form: an ordinary account with
      the submitted fields and the normalised email address. */
  function NewUser(f: RegistrationForm, id: nat): User {
    User(id, f.username, NormalizeEmail(f.email), f.firstName, f.lastName, f.phoneNumber,
         f.address, f.city, f.postalCode, false)
  }

  /** Why registration refuses the request, checked in the view's order;
      `None` when it goes ahead. */
  function RegistrationError(signedIn: bool, verb: HttpMethod, f: RegistrationForm, users: seq<User>): (e: Option<Error>)
    ensures e.None? <==> !signedIn && verb == Post && f.password1 == f.password2
                         && !EmailTaken(users, f.email) && !UsernameTaken(users, f.username)
    ensures signedIn ==> e == Some(AlreadySignedIn)
    ensures !signedIn && verb == Post && f.password1 != f.password2 ==> e == Some(PasswordMismatch)
    ensures e == Some(UsernameExists) ==> UsernameTaken(users, f.username) && !EmailTaken(users, f.email)
    ensures !signedIn && verb != Post ==> e == Some(NotSubmitted)
    ensures !signedIn && verb == Post && f.password1 == f.password2 && EmailTaken(users, f.email) ==>
              e == Some(EmailExists)
    ensures !signedIn && verb == Post && f.password1 == f.password2 && !EmailTaken(users, f.email)
              && UsernameTaken(users, f.username) ==>
              e == Some(UsernameExists)
  {
    if signedIn then Some(AlreadySignedIn)
    else if verb != Post then Some(NotSubmitted)
    else if f.password1 != f.password2 then Some(PasswordMismatch)
    else if EmailTaken(users, f.email) then Some(EmailExists)
    else if UsernameTaken(users, f.username) then Some(UsernameExists)
    else None
  }

  /** The user with `username`, if any. */
  function FindByUsername(users: seq<User>, username: string): (r: Option<User>)
    ensures r.Some? ==> r.value in users && r.value.username == username
    ensures r.None? <==> !UsernameTaken(users, username)
  {
    if users == [] then None
    else if users[0].username == username then Some(users[0])
    else
      var rest := FindByUsername(users[1..], username);
      assert UsernameTaken(users[1..], username) ==> UsernameTaken(users, username) by {
        if UsernameTaken(users[1..], username) {
          var k :| 0 <= k < |users[1..]| && users[1..][k].username == username;
          assert users[k + 1].username == username;
        }
      }
      rest
  }

  /** Emails are unique (a unique column), usernames are unique, and ids
      are below the next one to hand out. */
  ghost predicate UsersValid(users: seq<User>, nextUserId: nat) {
    && (forall i, j :: 0 <= i < j < |users| ==> users[i].email != users[j].email)
    && (forall i, j :: 0 <= i < j < |users| ==> users[i].username != users[j].username)
    && (forall i :: 0 <= i < |users| ==> users[i].id < nextUserId)
  }

  /** Every stored address is normalised. */
  ghost predicate EmailsNormalized(users: seq<User>) {
    forall i :: 0 <= i < |users| ==> NormalizeEmail(users[i].email) == users[i].email
  }

  /** Appending a user with a fresh address and username and the next id
      keeps the table valid. */
  lemma AppendKeepsValid(users: seq<User>, nextUserId: nat, u: User)
    requires UsersValid(users, nextUserId)
    requires u.id == nextUserId
    requires !EmailTaken(users, u.email) && !UsernameTaken(users, u.username)
    ensures UsersValid(users + [u], nextUserId + 1)
  {
  }

  /** Appending a user whose address is normalised keeps every stored
      address normalised. */
  lemma AppendKeepsNormalized(users: seq<User>, u: User)
    requires EmailsNormalized(users) && NormalizeEmail(u.email) == u.email
    ensures EmailsNormalized(users + [u])
  {
    var t := users + [u];
    forall i | 0 <= i < |t| ensures NormalizeEmail(t[i].email) == t[i].email {
      if i < |users| {
        assert t[i] == users[i];
      }
    }
  }

  class UserDirectory {
    var users: seq<User>
    var nextUserId: nat

    /** The table is valid and its addresses are normalised. */
    ghost predicate Valid()
      reads this
    {
      UsersValid(users, nextUserId) && EmailsNormalized(users)
    }

    constructor ()
      ensures Valid() && users == []
    {
      users, nextUserId := [], 1;
    }

    /** `register_view`: adds the new user and answers its id, unless
        `RegistrationError` names a reason to refuse, `create_user` refuses
        an empty username, or the normalised address is already stored,
        which the unique column refuses. */
    method Register(signedIn: bool, verb: HttpMethod, f: RegistrationForm) returns (r: Result<nat>)
      requires Valid()
      modifies this
      ensures Valid()
      ensures r.Err? <==> RegistrationError(signedIn, verb, f, old(users)).Some?
                          || f.username == [] || EmailTaken(old(users), NormalizeEmail(f.email))
      ensures RegistrationError(signedIn, verb, f, old(users)).Some? ==>
                r == Err(RegistrationError(signedIn, verb, f, old(users)).value)
      ensures RegistrationError(signedIn, verb, f, old(users)).None? && f.username == [] ==>
                r == Err(MissingFields)
      ensures RegistrationError(signedIn, verb, f, old(users)).None? && f.username != []
              && EmailTaken(old(users), NormalizeEmail(f.email)) ==>
                r == Err(IntegrityError)
      ensures r.Err? ==> unchanged(this)
      ensures r.Ok? ==> r.value == old(nextUserId) && users == old(users) + [NewUser(f, r.value)]
      ensures r.Ok? ==> nextUserId == old(nextUserId) + 1
      ensures r.Ok? ==> FindByUsername(users, f.username) == Some(NewUser(f, r.value))
    {
      var e := RegistrationError(signedIn, verb, f, users);
      if e.Some? {
        return Err(e.value);
      }
      if f.username == [] {
        return Err(MissingFields);
      }
      var email := NormalizeEmail(f.email);
      if EmailTaken(users, email) {
        return Err(IntegrityError);
      }
      var id := Admit(f);
      r := Ok(id);
    }

    /** `create_user` and `save()` for a form whose normalised address and
        username are unused: one user appended under the next id. */
    method Admit(f: RegistrationForm) returns (id: nat)
      requires Valid()
      requires !EmailTaken(users, NormalizeEmail(f.email)) && !UsernameTaken(users, f.username)
      modifies this
      ensures Valid()
      ensures id == old(nextUserId) && nextUserId == old(nextUserId) + 1
      ensures users == old(users) + [NewUser(f, id)]
      ensures FindByUsername(users, f.username) == Some(NewUser(f, id))
    {
      id := nextUserId;
      var u := NewUser(f, id);
      AppendNewUser(users, id, f);
      users, nextUserId := users + [u], id + 1;
    }
  }

  /** The user registered from `f` under a fresh normalised address and a
      fresh username keeps the table valid and normalised, and is the one
      found by its username. */
  lemma AppendNewUser(users: seq<User>, nextUserId: nat, f: RegistrationForm)
    requires UsersValid(users, nextUserId) && EmailsNormalized(users)
    requires !EmailTaken(users, NormalizeEmail(f.email)) && !UsernameTaken(users, f.username)
    ensures var t := users + [NewUser(f, nextUserId)];
      && UsersValid(t, nextUserId + 1) && EmailsNormalized(t)
      && FindByUsername(t, f.username) == Some(NewUser(f, nextUserId))
  {
    var u := NewUser(f, nextUserId);
    NormalizeEmailIdempotent(f.email, u.email);
    AppendKeepsValid(users, nextUserId, u);
    AppendKeepsNormalized(users, u);
    NewUserIsFound(users, u);
  }

  /** A user appended under a fresh username is the one found by it. */
  lemma {:induction false} NewUserIsFound(users: seq<User>, u: User)
    requires !UsernameTaken(users, u.username)
    ensures FindByUsername(users + [u], u.username) == Some(u)
  {
    if users == [] {
      assert users + [u] == [u];
    } else {
      assert (users + [u])[1..] == users[1..] + [u];
      forall k | 0 <= k < |users[1..]| ensures users[1..][k].username != u.username {
        assert users[1..][k] == users[k + 1];
      }
      NewUserIsFound(users[1..], u);
    }
  }
}
