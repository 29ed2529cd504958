/** app/auth.py: the bearer-token dependency every router uses. The header is
    parsed, the token is handed to Google's verifier (a parameter here), the
    issuer is checked, and the caller's user record is upserted by subject. */
module Auth {
  import opened Common
  import opened Utils
  import opened Db

  const Bearer: string := "bearer "
  const MissingToken: HttpError := HttpError(Unauthorized, "Missing Google ID token.")
  const InvalidToken: HttpError := HttpError(Unauthorized, "Invalid Google ID token.")
  const InvalidIssuer: HttpError := HttpError(Unauthorized, "Invalid token issuer.")

  /** The issuers Google signs ID tokens as; a token without `iss` is not one. */
  predicate IsGoogleIssuer(iss: Option<string>) {
    iss == Some("accounts.google.com") || iss == Some("https://accounts.google.com")
  }

  /** `str.lower` on one character, for the characters that can matter to a
      comparison with the all-ASCII `Bearer`: no other character lowers to
      one of its letters or to a space. */
  function LowerChar(c: char): (l: char)
    ensures 'A' <= c <= 'Z' ==> l as int == c as int + 32
    ensures !('A' <= c <= 'Z') ==> l == c
  {
    if 'A' <= c <= 'Z' then (c as int + 32) as char else c
  }

  /** `authorization.lower().startswith("bearer ")`. */
  predicate HasBearerPrefix(s: string) {
    |s| >= |Bearer| && forall k :: 0 <= k < |Bearer| ==> LowerChar(s[k]) == Bearer[k]
  }

  /** The characters Python's `str.isspace` accepts. */
  predicate IsSpace(c: char) {
    var n := c as int;
    || (0x09 <= n <= 0x0D) || (0x1C <= n <= 0x20) || n == 0x85 || n == 0xA0 || n == 0x1680
    || (0x2000 <= n <= 0x200A) || n == 0x2028 || n == 0x2029 || n == 0x202F || n == 0x205F || n == 0x3000
  }

  function TrimStart(s: string): (r: string)
    ensures |r| <= |s| && r == s[|s| - |r|..]
    ensures forall k :: 0 <= k < |s| - |r| ==> IsSpace(s[k])
    ensures r == [] || !IsSpace(r[0])
  {
    if s != [] && IsSpace(s[0]) then TrimStart(s[1..]) else s
  }

  function TrimEnd(s: string): (r: string)
    ensures |r| <= |s| && r == s[..|r|]
    ensures forall k :: |r| <= k < |s| ==> IsSpace(s[k])
    ensures r == [] || !IsSpace(r[|r| - 1])
  {
    if s != [] && IsSpace(s[|s| - 1]) then TrimEnd(s[..|s| - 1]) else s
  }

  /** `str.strip()`: the slice of `s` left once the whitespace at both ends is
      removed. */
  function Strip(s: string): (r: string)
    ensures exists i, j ::
      && 0 <= i <= j <= |s| && r == s[i..j]
      && (forall k :: 0 <= k < i ==> IsSpace(s[k]))
      && (forall k :: j <= k < |s| ==> IsSpace(s[k]))
    ensures r == [] || (!IsSpace(r[0]) && !IsSpace(r[|r| - 1]))
  {
    var front := TrimStart(s);
    var r := TrimEnd(front);
    var i := |s| - |front|;
    assert r == s[i..i + |r|];
    r
  }

  /** Stripping a string already stripped changes nothing. */
  lemma StripIdempotent(s: string)
    ensures Strip(Strip(s)) == Strip(s)
  {
    var r := Strip(s);
    if r != [] {
      assert TrimStart(r) == r;
      assert TrimEnd(r) == r;
    }
  }

  /** The position of the first space in `s`, if there is one. */
  function FirstSpace(s: string): (r: Option<nat>)
    ensures r.Some? ==> r.value < |s| && s[r.value] == ' ' && forall k :: 0 <= k < r.value ==> s[k] != ' '
    ensures r.None? ==> forall k :: 0 <= k < |s| ==> s[k] != ' '
  {
    if s == [] then None
    else if s[0] == ' ' then Some(0)
    else match FirstSpace(s[1..])
      case None => None
      case Some(k) => Some(k + 1)
  }

  /** `s.split(" ", 1)[1]`: what follows the first space (`s` must hold one). */
  function AfterFirstSpace(s: string): (r: string)
    requires FirstSpace(s).Some?
    ensures |r| < |s| && r == s[|s| - |r|..]
  {
    s[FirstSpace(s).value + 1..]
  }

  /** With the `bearer ` prefix in place, the first space is its own, so the
      token is everything after the seventh character. */
  lemma {:induction false} TokenFollowsPrefix(s: string)
    requires HasBearerPrefix(s)
    ensures FirstSpace(s) == Some(|Bearer| - 1)
    ensures AfterFirstSpace(s) == s[|Bearer|..]
  {
    assert LowerChar(s[|Bearer| - 1]) == ' ';
    forall k | 0 <= k < |Bearer| - 1 ensures s[k] != ' ' {
      assert LowerChar(s[k]) == Bearer[k];
    }
  }

  /** Lines 15-20: the token carried by the `Authorization` header. */
  function ParseBearer(authorization: Option<string>): (r: Result<string>)
    ensures r.Ok? <==>
      authorization.Some? && HasBearerPrefix(authorization.value) && Strip(authorization.value[|Bearer|..]) != ""
    ensures r.Ok? ==> r.value == Strip(authorization.value[|Bearer|..])
    ensures r.Err? ==> r.error == MissingToken
  {
    if authorization.None? || authorization.value == "" || !HasBearerPrefix(authorization.value) then
      Err(MissingToken)
    else
      var header := authorization.value;
      TokenFollowsPrefix(header);
      var token := Strip(AfterFirstSpace(header));
      if token == "" then Err(MissingToken) else Ok(token)
  }

  /** The claims of a verified Google ID token the handler reads, each absent
      when the token does not carry it. */
  datatype Claims = Claims(
    sub: Option<string>,
    email: Option<string>,
    name: Option<string>,
    picture: Option<string>,
    iss: Option<string>)

  /** Lines 15-34: the verified claims of the caller. `verify` stands for
      `id_token.verify_oauth2_token` with the configured client id: `None`
      when it raises. */
  function Authenticate(authorization: Option<string>, verify: string -> Option<Claims>): (r: Result<Claims>)
    ensures r.Ok? <==>
      && ParseBearer(authorization).Ok?
      && verify(ParseBearer(authorization).value).Some?
      && IsGoogleIssuer(verify(ParseBearer(authorization).value).value.iss)
    ensures r.Ok? ==> r == Ok(verify(ParseBearer(authorization).value).value)
    ensures r.Err? ==> r.error.code == Unauthorized
    ensures ParseBearer(authorization).Err? ==> r == Err(MissingToken)
    ensures ParseBearer(authorization).Ok? && verify(ParseBearer(authorization).value).None? ==>
      r == Err(InvalidToken)
    ensures ParseBearer(authorization).Ok? && verify(ParseBearer(authorization).value).Some?
            && !IsGoogleIssuer(verify(ParseBearer(authorization).value).value.iss) ==>
      r == Err(InvalidIssuer)
  {
    var token :- ParseBearer(authorization);
    match verify(token)
    case None => Err(InvalidToken)
    case Some(claims) =>
      if !IsGoogleIssuer(claims.iss) then Err(InvalidIssuer) else Ok(claims)
  }

  /** The `{"google_sub": sub}` filter. */
  function WithSub(sub: Option<string>): Row<UserDoc> -> bool {
    (x: Row<UserDoc>) => x.doc.googleSub == sub
  }

  /** An existing user after the `$set`: the profile fields come from the
      token and the login is stamped; subject, creation time and approval are
      kept. */
  function LoggedIn(d: UserDoc, claims: Claims, now: Time): (e: UserDoc)
    ensures e.googleSub == d.googleSub && e.createdAt == d.createdAt && e.approved == d.approved
    ensures e.email == claims.email && e.name == claims.name && e.avatarUrl == claims.picture
    ensures e.lastLoginAt == Some(now)
  {
    d.(email := claims.email, name := claims.name, avatarUrl := claims.picture, lastLoginAt := Some(now))
  }

  /** The user the upsert inserts: the `$set` and `$setOnInsert` fields, with
      no `approved` flag. */
  function SignedUp(claims: Claims, now: Time): (e: UserDoc)
    ensures e.googleSub == claims.sub && e.createdAt == Some(now) && e.lastLoginAt == Some(now)
    ensures e.email == claims.email && e.name == claims.name && e.avatarUrl == claims.picture
    ensures e.approved.None?
  {
    UserDoc(claims.sub, claims.email, claims.name, claims.picture, None, Some(now), Some(now))
  }

  /** The users collection after `find_one_and_update(..., upsert=True)`. */
  function Upserted(users: seq<Row<UserDoc>>, claims: Claims, now: Time, newId: ObjectId): (r: seq<Row<UserDoc>>)
    ensures (forall k :: 0 <= k < |users| ==> users[k].doc.googleSub != claims.sub) ==>
      r == users + [Row(newId, SignedUp(claims, now))]
    ensures (exists k :: 0 <= k < |users| && users[k].doc.googleSub == claims.sub) ==>
      exists i :: 0 <= i < |users|
        && users[i].doc.googleSub == claims.sub
        && (forall k :: 0 <= k < i ==> users[k].doc.googleSub != claims.sub)
        && r == users[i := Row(users[i].id, LoggedIn(users[i].doc, claims, now))]
  {
    match FirstMatch(users, WithSub(claims.sub))
    case Some(i) => users[i := Row(users[i].id, LoggedIn(users[i].doc, claims, now))]
    case None => users + [Row(newId, SignedUp(claims, now))]
  }

  /** The upsert keeps one user per subject, and afterwards exactly one user
      carries the caller's subject. */
  lemma {:induction false} UpsertKeepsOneUserPerSub(users: seq<Row<UserDoc>>, claims: Claims, now: Time, newId: ObjectId)
    requires UniqueSubs(users)
    ensures UniqueSubs(Upserted(users, claims, now, newId))
    ensures exists k ::
      && 0 <= k < |Upserted(users, claims, now, newId)|
      && Upserted(users, claims, now, newId)[k].doc.googleSub == claims.sub
      && forall m :: 0 <= m < |Upserted(users, claims, now, newId)| && m != k ==>
           Upserted(users, claims, now, newId)[m].doc.googleSub != claims.sub
  {
    var r := Upserted(users, claims, now, newId);
    match FirstMatch(users, WithSub(claims.sub))
    case Some(i) =>
      assert users[i].doc.googleSub == claims.sub;
      forall a, b | 0 <= a < b < |r| ensures r[a].doc.googleSub != r[b].doc.googleSub {
        assert r[a].doc.googleSub == users[a].doc.googleSub;
        assert r[b].doc.googleSub == users[b].doc.googleSub;
      }
      forall m | 0 <= m < |r| && m != i ensures r[m].doc.googleSub != claims.sub {
        assert r[m] == users[m];
      }
      assert r[i].doc.googleSub == claims.sub;
    case None =>
      var n := |users|;
      forall a, b | 0 <= a < b < |r| ensures r[a].doc.googleSub != r[b].doc.googleSub {
        if b == n {
          assert !WithSub(claims.sub)(users[a]);
        } else {
          assert r[a] == users[a] && r[b] == users[b];
        }
      }
      forall m | 0 <= m < |r| && m != n ensures r[m].doc.googleSub != claims.sub {
        assert r[m] == users[m];
        assert !WithSub(claims.sub)(users[m]);
      }
      assert r[n].doc.googleSub == claims.sub;
  }

  /** Lines 36-55: the upsert of the authenticated caller. `now` is the
      handler's `utcnow()` and `newId` the id an insert would get. */
  method LogIn(db: Store, claims: Claims, now: Time, newId: ObjectId) returns (user: Row<UserDoc>)
    requires db.Valid()
    requires newId !in Ids(db.users)
    modifies db`users
    ensures db.Valid()
    ensures db.users == Upserted(old(db.users), claims, now, newId)
    ensures user in db.users && user.doc.googleSub == claims.sub && user.doc.lastLoginAt == Some(now)
  {
    UpsertKeepsOneUserPerSub(db.users, claims, now, newId);
    var found := FirstMatch(db.users, WithSub(claims.sub));
    if found.Some? {
      var i := found.value;
      user := Row(db.users[i].id, LoggedIn(db.users[i].doc, claims, now));
      ReplaceKeepsIds(db.users, i, user.doc);
      db.users := db.users[i := user];
    } else {
      user := Row(newId, SignedUp(claims, now));
      AppendKeepsDistinct(db.users, [user]);
      db.users := db.users + [user];
    }
  }

  /** `get_current_user`: authenticates the request, then logs the caller in,
      creating the user on first sight. */
  method GetCurrentUser(db: Store, authorization: Option<string>, verify: string -> Option<Claims>,
                        now: Time, newId: ObjectId)
    returns (r: Result<Row<UserDoc>>)
    requires db.Valid()
    requires newId !in Ids(db.users)
    modifies db`users
    ensures db.Valid()
    ensures Authenticate(authorization, verify).Err? ==>
      r == Err(Authenticate(authorization, verify).error) && db.users == old(db.users)
    ensures Authenticate(authorization, verify).Ok? ==>
      var claims := Authenticate(authorization, verify).value;
      && db.users == Upserted(old(db.users), claims, now, newId)
      && r.Ok? && r.value in db.users && r.value.doc.googleSub == claims.sub
      && r.value.doc.lastLoginAt == Some(now)
  {
    var authenticated := Authenticate(authorization, verify);
    if authenticated.Err? {
      return Err(authenticated.error);
    }
    var user := LogIn(db, authenticated.value, now, newId);
    r := Ok(user);
  }
}
