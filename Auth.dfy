/** The accounts of auth.py: registering a user with a unique email, and logging
    in by email and password. Password hashing and its check are parameters:
    `hash` stands for `generate_password_hash`, `verify` for
    `check_password_hash`. The access token is modelled by the identity it
    carries. */
module Auth {
  import opened Models

  /** An access token; only its identity is modelled. */
  datatype Token = Token(identity: string)

  /** A JSON string field that Python treats as true: present, not null, and
      not empty. */
  predicate Truthy(f: Option<string>)
  {
    f.Some? && f.value != ""
  }

  /** `data.get("phone_number") or None`: an empty phone number is stored as null. */
  function StoredPhone(phone: Option<string>): (r: Option<string>)
    ensures r.Some? <==> Truthy(phone)
    ensures r.Some? ==> r == phone
  {
    if Truthy(phone) then phone else None
  }

  /** The phone number is not null and some user in `users` already has it:
      the UNIQUE constraint of models.py:15 would refuse a second. */
  predicate PhoneTaken(users: map<int, User>, phone: Option<string>)
  {
    phone.Some? && exists id | id in users :: users[id].phoneNumber == phone
  }

  /** Adding a user whose email and (non-null) phone number no user has keeps
      every constraint of the schema. */
  lemma RegisterKeepsConsistent(users: map<int, User>, products: map<int, Product>,
                                cart: map<int, CartItem>, orders: map<int, Order>,
                                items: map<int, OrderItem>, nu: nat, np: nat, nc: nat, no: nat, ni: nat,
                                u: User)
    requires Consistent(users, products, cart, orders, items, nu, np, nc, no, ni)
    requires forall id :: id in users ==> users[id].email != u.email
    requires !PhoneTaken(users, u.phoneNumber)
    ensures Consistent(users[nu := u], products, cart, orders, items, nu + 1, np, nc, no, ni)
  {
    assert nu !in users;
  }

  /** `User.query.filter_by(email=email).first()`: the user with that email,
      if any. */
  method FindUserByEmail(users: map<int, User>, email: string, n: nat) returns (r: Option<int>)
    requires IdsBelow(users, n)
    ensures r.None? <==> forall id :: id in users ==> users[id].email != email
    ensures r.Some? ==> r.value in users && users[r.value].email == email
  {
    var found := UsersWithEmail(users, email, n);
    UsersWithEmailSpec(users, email, n);
    if found == [] {
      return None;
    }
    assert found[0] in found;
    r := Some(found[0]);
  }

  /** `register`. A missing or empty email or password is rejected; so is an
      email some user already has (409), and a phone number some user already
      has, which the UNIQUE constraint refuses at the commit. Otherwise exactly
      one user is added under the next id, with the email, the phone number
      (null when empty) and the hash of the password. */
  method Register(s: Store, email: Option<string>, phone: Option<string>, password: Option<string>,
                  hash: string -> string) returns (r: Result<int>)
    requires s.Valid()
    modifies s`users, s`nextUserId
    ensures s.Valid()
    ensures r.Err? ==> s.users == old(s.users) && s.nextUserId == old(s.nextUserId)
    ensures !Truthy(email) || !Truthy(password) ==> r == Err(MissingField)
    ensures Truthy(email) && Truthy(password) ==>
      && ((exists id :: id in old(s.users) && old(s.users)[id].email == email.value) ==> r == Err(EmailExists))
      && ((forall id :: id in old(s.users) ==> old(s.users)[id].email != email.value) ==>
            && (PhoneTaken(old(s.users), StoredPhone(phone)) ==> r == Err(ConstraintViolation))
            && (!PhoneTaken(old(s.users), StoredPhone(phone)) ==>
                  && r == Ok(old(s.nextUserId))
                  && s.users == old(s.users)[r.value := User(email.value, StoredPhone(phone), hash(password.value))]
                  && s.nextUserId == old(s.nextUserId) + 1))
  {
    var phoneNumber := StoredPhone(phone);
    if !Truthy(email) || !Truthy(password) {
      return Err(MissingField);
    }
    var found := FindUserByEmail(s.users, email.value, s.nextUserId);
    if found.Some? {
      return Err(EmailExists);
    }
    var u := User(email.value, phoneNumber, hash(password.value));
    if PhoneTaken(s.users, u.phoneNumber) {
      return Err(ConstraintViolation);
    }
    RegisterKeepsConsistent(s.users, s.products, s.cartItems, s.orders, s.orderItems, s.nextUserId,
                            s.nextProductId, s.nextCartItemId, s.nextOrderId, s.nextOrderItemId, u);
    s.users := s.users[s.nextUserId := u];
    s.nextUserId := s.nextUserId + 1;
    r := Ok(s.nextUserId - 1);
  }

  /** `login`. A missing or empty email or password is rejected (400); an email
      no user has, or a password the stored hash does not verify, gives "bad
      credentials" (401); otherwise the token's identity is the email. */
  function Login(s: Store, email: Option<string>, password: Option<string>,
                 verify: (string, string) -> bool): (r: Result<Token>)
    reads s
    requires IdsBelow(s.users, s.nextUserId) && UniqueEmails(s.users)
    ensures !Truthy(email) || !Truthy(password) ==> r == Err(MissingField)
    ensures Truthy(email) && Truthy(password) ==>
      (r.Ok? <==> exists id :: id in s.users && s.users[id].email == email.value &&
                               verify(s.users[id].passwordHash, password.value))
    ensures Truthy(email) && Truthy(password) && r.Err? ==> r == Err(BadCredentials)
    ensures r.Ok? ==> r.value == Token(email.value)
  {
    if !Truthy(email) || !Truthy(password) then Err(MissingField)
    else
      var found := UsersWithEmail(s.users, email.value, s.nextUserId);
      UsersWithEmailSpec(s.users, email.value, s.nextUserId);
      if found == [] then Err(BadCredentials)
      else
        var id := found[0];
        assert id in found;
        assert forall other :: other in s.users && s.users[other].email == email.value ==> other == id;
        if !verify(s.users[id].passwordHash, password.value) then Err(BadCredentials)
        else Ok(Token(email.value))
  }

  /** Registering and then logging in with the same email and password: once
      the registration is accepted, the login succeeds whenever the password
      check accepts the hash of the password, and its token names that email. */
  method RegisterThenLogin(s: Store, email: string, phone: Option<string>, password: string,
                           hash: string -> string, verify: (string, string) -> bool)
    returns (registered: Result<int>, token: Result<Token>)
    requires s.Valid()
    modifies s`users, s`nextUserId
    ensures s.Valid()
    ensures registered.Ok? && verify(hash(password), password) ==> token == Ok(Token(email))
  {
    registered := Register(s, Some(email), phone, Some(password), hash);
    token := Login(s, Some(email), Some(password), verify);
    if registered.Ok? {
      assert s.users[registered.value].email == email;
    }
  }
}
