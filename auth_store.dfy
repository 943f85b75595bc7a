/**
  * The session store: the signed-in user, their token and whether the app
  * treats them as authenticated, read from browser storage when the store is
  * created and written back by sign-in (`setAuth`) and sign-out (`logout`).
  * Browser storage is a map from keys to strings; the user record is stored
  * serialised, here by a length-prefixed encoding that reads back exactly.
  */
module AuthStore {
  import opened Wrappers
  import opened Text

  datatype Role = Admin | RegularUser

  /** The signed-in user as the store holds it. */
  datatype AuthUser = AuthUser(id: string, email: string, role: Role, name: string)

  const TokenKey: string := "token"
  const UserKey: string := "user"
  const LoginPath: string := "/login"

  // ---------------------------------------------------------------------
  // Serialising the user record
  // ---------------------------------------------------------------------

  function RoleText(r: Role): string {
    match r
    case Admin => "admin"
    case RegularUser => "user"
  }

  function ParseRole(s: string): (r: Option<Role>)
    ensures r.Some? ==> RoleText(r.value) == s
  {
    if s == "admin" then Some(Admin) else if s == "user" then Some(RegularUser) else None
  }

  lemma RoleRoundTrip(r: Role)
    ensures ParseRole(RoleText(r)) == Some(r)
  {
    match r
    case Admin =>
    case RegularUser =>
      assert RoleText(r)[0] == 'u';
  }

  /** One field: its length in decimal, a colon, then the characters. */
  function Field(s: string): (r: string)
    ensures r != []
  {
    Decimal(|s|) + ":" + s
  }

  /** Splits the leading field off s, giving its characters and what follows. */
  function TakeField(s: string): (r: Option<(string, string)>)
    ensures r.Some? ==> |r.value.1| < |s|
  {
    var n := LeadingDigits(s);
    if n == 0 || n == |s| || s[n] != ':' then None
    else
      var len := ParseDecimal(s[..n]);
      if n + 1 + len > |s| then None
      else Some((s[n + 1..n + 1 + len], s[n + 1 + len..]))
  }

  lemma FieldRoundTrip(v: string, rest: string)
    ensures TakeField(Field(v) + rest) == Some((v, rest))
  {
    var d := Decimal(|v|);
    var s := Field(v) + rest;
    assert s == d + (":" + v + rest);
    LeadingDigitsAppend(d, ":" + v + rest);
    assert s[..|d|] == d;
    DecimalRoundTrip(|v|);
    assert s[|d| + 1..|d| + 1 + |v|] == v;
    assert s[|d| + 1 + |v|..] == rest;
  }

  /** `JSON.stringify(user)` */
  function Encode(u: AuthUser): (r: string)
    ensures r != []
  {
    Field(u.id) + Field(u.email) + Field(RoleText(u.role)) + Field(u.name)
  }

  /** `JSON.parse(s)` for a serialised user; None for text that is not one. */
  function Decode(s: string): Option<AuthUser> {
    match TakeField(s)
    case None => None
    case Some((id, r1)) =>
      match TakeField(r1)
      case None => None
      case Some((email, r2)) =>
        match TakeField(r2)
        case None => None
        case Some((role, r3)) =>
          match TakeField(r3)
          case None => None
          case Some((name, r4)) =>
            if r4 != [] then None
            else
              match ParseRole(role)
              case None => None
              case Some(rl) => Some(AuthUser(id, email, rl, name))
  }

  /** Reading back a stored user gives the same user. */
  lemma EncodeRoundTrip(u: AuthUser)
    ensures Decode(Encode(u)) == Some(u)
  {
    var f1 := Field(u.id);
    var f2 := Field(u.email);
    var f3 := Field(RoleText(u.role));
    var f4 := Field(u.name);
    assert Encode(u) == f1 + (f2 + f3 + f4);
    assert f2 + f3 + f4 == f2 + (f3 + f4);
    assert f4 == f4 + [];
    FieldRoundTrip(u.id, f2 + f3 + f4);
    FieldRoundTrip(u.email, f3 + f4);
    FieldRoundTrip(RoleText(u.role), f4);
    FieldRoundTrip(u.name, []);
    RoleRoundTrip(u.role);
    DecodeFields(Encode(u), u.id, u.email, RoleText(u.role), u.name, f2 + f3 + f4, f3 + f4, f4);
  }

  /** Four fields in a row, with nothing after them, decode to a user when the third names a role. */
  lemma DecodeFields(s: string, id: string, email: string, role: string, name: string,
                     r1: string, r2: string, r3: string)
    requires TakeField(s) == Some((id, r1)) && TakeField(r1) == Some((email, r2))
    requires TakeField(r2) == Some((role, r3)) && TakeField(r3) == Some((name, []))
    requires ParseRole(role).Some?
    ensures Decode(s) == Some(AuthUser(id, email, ParseRole(role).value, name))
  {
  }

  // ---------------------------------------------------------------------
  // The store
  // ---------------------------------------------------------------------

  /** The three fields of the store. */
  datatype Session = Session(user: Option<AuthUser>, token: Option<string>, isAuthenticated: bool)

  const SignedOut: Session := Session(None, None, false)

  /** A stored user entry counts when it is present and non-empty. */
  predicate HasStoredUser(storage: map<string, string>) {
    UserKey in storage && storage[UserKey] != ""
  }

  /** Storage the store can start from: a stored user entry, when there is one, parses. */
  predicate Readable(storage: map<string, string>) {
    HasStoredUser(storage) ==> Decode(storage[UserKey]).Some?
  }

  /**
    * The state a store starts with: the parsed user entry or none, the
    * token entry or none, and authenticated exactly when the token entry is
    * a non-empty string.
    */
  function Initial(storage: map<string, string>): (s: Session)
    requires Readable(storage)
    ensures s.isAuthenticated <==> TokenKey in storage && storage[TokenKey] != ""
    ensures s.token.Some? <==> TokenKey in storage
    ensures s.token.Some? ==> s.token.value == storage[TokenKey]
    ensures s.user.Some? <==> HasStoredUser(storage)
    ensures s.user.Some? ==> Decode(storage[UserKey]) == s.user
  {
    Session(
      if HasStoredUser(storage) then Decode(storage[UserKey]) else None,
      if TokenKey in storage then Some(storage[TokenKey]) else None,
      TokenKey in storage && storage[TokenKey] != "")
  }

  /** What sign-in writes to storage. */
  function SignedInStorage(storage: map<string, string>, u: AuthUser, token: string): map<string, string> {
    storage[TokenKey := token][UserKey := Encode(u)]
  }

  /** What sign-out leaves in storage: everything but the token and user entries. */
  function SignedOutStorage(storage: map<string, string>): (r: map<string, string>)
    ensures TokenKey !in r && UserKey !in r
    ensures forall k :: k in r <==> k in storage && k != TokenKey && k != UserKey
    ensures forall k :: k in r ==> r[k] == storage[k]
  {
    storage - {TokenKey, UserKey}
  }

  /**
    * A store created after sign-in reads back the same user and token; it
    * is authenticated again exactly when the token was non-empty (sign-in
    * itself always sets the flag).
    */
  lemma ReloadAfterSignIn(storage: map<string, string>, u: AuthUser, token: string)
    ensures Readable(SignedInStorage(storage, u, token))
    ensures Initial(SignedInStorage(storage, u, token)) == Session(Some(u), Some(token), token != "")
  {
    EncodeRoundTrip(u);
  }

  /** Signing out twice leaves storage as signing out once, and a store created afterwards is signed out. */
  lemma SignOutIdempotent(storage: map<string, string>)
    ensures SignedOutStorage(SignedOutStorage(storage)) == SignedOutStorage(storage)
    ensures Readable(SignedOutStorage(storage))
    ensures Initial(SignedOutStorage(storage)) == SignedOut
  {
  }

  class Store {
    var storage: map<string, string>
    var user: Option<AuthUser>
    var token: Option<string>
    var isAuthenticated: bool
    /** The location the browser is sent to; sign-out sets it to the login page. */
    var href: string

    function State(): Session
      reads this
    {
      Session(user, token, isAuthenticated)
    }

    /** The store as created on page load from what storage holds. */
    constructor(stored: map<string, string>, location: string)
      requires Readable(stored)
      ensures storage == stored && href == location
      ensures State() == Initial(stored)
    {
      storage := stored;
      href := location;
      var s := Initial(stored);
      user := s.user;
      token := s.token;
      isAuthenticated := s.isAuthenticated;
    }

    /** `setAuth(user, token)` */
    method SetAuth(u: AuthUser, t: string)
      modifies this`storage, this`user, this`token, this`isAuthenticated
      ensures storage == SignedInStorage(old(storage), u, t)
      ensures State() == Session(Some(u), Some(t), true)
    {
      storage := storage[TokenKey := t];
      storage := storage[UserKey := Encode(u)];
      user := Some(u);
      token := Some(t);
      isAuthenticated := true;
    }

    /** `logout()` */
    method Logout()
      modifies this`storage, this`user, this`token, this`isAuthenticated, this`href
      ensures storage == SignedOutStorage(old(storage))
      ensures State() == SignedOut
      ensures href == LoginPath
    {
      storage := storage - {TokenKey};
      storage := storage - {UserKey};
      user := None;
      token := None;
      isAuthenticated := false;
      href := LoginPath;
    }
  }
}
