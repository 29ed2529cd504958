/** app/tasks.py: the operator task that approves or un-approves a user by
    email address. */
module Tasks {
  import opened Common
  import opened Db

  /** The `{"email": email}` filter. */
  function WithEmail(email: string): Row<UserDoc> -> bool {
    (x: Row<UserDoc>) => x.doc.email == Some(email)
  }

  /** The user after the pipeline `$set`: `approved` becomes the negation of
      its stored value, a missing or null flag counting as false; nothing else
      changes. */
  function ApprovalToggled(d: UserDoc): (e: UserDoc)
    ensures e.approved == Some(!Truthy(d.approved))
    ensures e == d.(approved := e.approved)
  {
    d.(approved := Some(!Truthy(d.approved)))
  }

  /** The users collection and the result after the toggle for `email`. */
  function ApprovalToggledByEmail(users: seq<Row<UserDoc>>, email: string): (r: (seq<Row<UserDoc>>, Option<bool>))
    ensures |r.0| == |users|
    ensures r.1.Some? <==> exists k :: 0 <= k < |users| && users[k].doc.email == Some(email)
    ensures forall k :: 0 <= k < |users| ==> r.0[k].id == users[k].id && r.0[k].doc.email == users[k].doc.email
  {
    match FirstMatch(users, WithEmail(email))
    case None => (users, None)
    case Some(i) =>
      var after := Row(users[i].id, ApprovalToggled(users[i].doc));
      (users[i := after], Some(Truthy(after.doc.approved)))
  }

  /** What the toggle changes: when a user has the email, the first such user's
      `approved` flag and nothing else, and the result is its new value; when
      none has it, nothing, and the result is `None`. */
  lemma ToggleChangesOnlyApproval(users: seq<Row<UserDoc>>, email: string)
    ensures |ApprovalToggledByEmail(users, email).0| == |users|
    ensures ApprovalToggledByEmail(users, email).1.None? <==> forall k :: 0 <= k < |users| ==> users[k].doc.email != Some(email)
    ensures ApprovalToggledByEmail(users, email).1.None? ==> ApprovalToggledByEmail(users, email).0 == users
    ensures ApprovalToggledByEmail(users, email).1.Some? ==>
      exists i :: 0 <= i < |users|
        && users[i].doc.email == Some(email)
        && (forall k :: 0 <= k < i ==> users[k].doc.email != Some(email))
        && ApprovalToggledByEmail(users, email).1 == Some(!Truthy(users[i].doc.approved))
        && ApprovalToggledByEmail(users, email).0 == users[i := Row(users[i].id, users[i].doc.(approved := Some(!Truthy(users[i].doc.approved))))]
  {
    match FirstMatch(users, WithEmail(email))
    case None =>
    case Some(i) =>
      assert WithEmail(email)(users[i]);
  }

  /** Toggling the same email twice restores the user's approval (as a
      boolean; a missing flag comes back as an explicit false). */
  lemma {:induction false} ToggleTwiceRestores(users: seq<Row<UserDoc>>, email: string)
    requires ApprovalToggledByEmail(users, email).1.Some?
    ensures
      var once := ApprovalToggledByEmail(users, email).0;
      var twice := ApprovalToggledByEmail(once, email).0;
      && |twice| == |users|
      && exists i :: 0 <= i < |users| && users[i].doc.email == Some(email)
           && twice == users[i := Row(users[i].id, users[i].doc.(approved := Some(Truthy(users[i].doc.approved))))]
           && ApprovalToggledByEmail(once, email).1 == Some(Truthy(users[i].doc.approved))
  {
    var i := FirstMatch(users, WithEmail(email)).value;
    var once := ApprovalToggledByEmail(users, email).0;
    assert once[i].doc.email == users[i].doc.email;
    forall k | 0 <= k < i ensures !WithEmail(email)(once[k]) {
      assert once[k] == users[k];
    }
    assert FirstMatch(once, WithEmail(email)) == Some(i);
    assert users[i].doc.email == Some(email);
  }

  /** `toggle_user_approved_by_email`: flips the approval of the first user
      with that email and answers the new flag, or `None` when no user has it. */
  method ToggleUserApprovedByEmail(db: Store, email: string) returns (r: Option<bool>)
    requires db.Valid()
    modifies db`users
    ensures db.Valid()
    ensures (db.users, r) == ApprovalToggledByEmail(old(db.users), email)
  {
    var found := FirstMatch(db.users, WithEmail(email));
    if found.None? {
      return None;
    }
    var i := found.value;
    var user := Row(db.users[i].id, ApprovalToggled(db.users[i].doc));
    ReplaceKeepsIds(db.users, i, user.doc);
    db.users := db.users[i := user];
    r := Some(Truthy(user.doc.approved));
  }
}
