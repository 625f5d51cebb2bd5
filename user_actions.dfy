/** actions/user-actions.ts: the signed-in user's profile, password and notification settings.
    Only the name and the password are stored; the other profile fields and the notification
    settings are accepted and dropped. */
module UserActions {
  import opened Results
  import opened Schema
  import opened Auth
  import opened Store

  const NameRequired := "Name fields are required"
  const ProfileFailed := "Failed to update profile"
  const PasswordRequired := "All password fields are required"
  const PasswordMismatch := "New passwords do not match"
  const PasswordFailed := "Failed to update password"
  const NotificationsFailed := "Failed to update notification settings"

  /** `${firstName} ${lastName}`. */
  function FullName(firstName: string, lastName: string): (name: string)
    ensures |name| == |firstName| + 1 + |lastName|
    ensures name[..|firstName|] == firstName && name[|firstName|] == ' ' && name[|firstName| + 1..] == lastName
  {
    firstName + " " + lastName
  }

  /** `updateProfile`: the user's name becomes first and last name joined by a space. A user the
      store does not hold makes its update fail. */
  method UpdateProfile(db: Store, current: Option<User>, firstName: string, lastName: string)
    returns (r: Result<Id>)
    requires db.Valid()
    modifies db
    ensures db.Valid()
    ensures var t := old(db.data);
      if current.None? then r == Err(ProfileFailed) && db.data == t
      else if firstName == "" || lastName == "" then r == Err(NameRequired) && db.data == t
      else if current.value.id !in t.users then r == Err(ProfileFailed) && db.data == t
      else r == Ok(current.value.id)
           && db.data == UpdateUserRow(t, current.value.id, FullName(firstName, lastName), t.users[current.value.id].password)
  {
    var auth := RequireAuth(current);
    if auth.Err? {
      return Err(ProfileFailed);
    }
    if firstName == "" || lastName == "" {
      return Err(NameRequired);
    }
    var id := auth.value.id;
    if id !in db.data.users {
      return Err(ProfileFailed);
    }
    db.UpdateUser(id, FullName(firstName, lastName), db.data.users[id].password);
    r := Ok(id);
  }

  /** `updatePassword`: all three fields are required and the new password must be confirmed;
      the current password is not checked. */
  method UpdatePassword(db: Store, current: Option<User>, currentPassword: string, newPassword: string,
                        confirmPassword: string) returns (r: Result<()>)
    requires db.Valid()
    modifies db
    ensures db.Valid()
    ensures var t := old(db.data);
      if current.None? then r == Err(PasswordFailed) && db.data == t
      else if currentPassword == "" || newPassword == "" || confirmPassword == "" then
        r == Err(PasswordRequired) && db.data == t
      else if newPassword != confirmPassword then r == Err(PasswordMismatch) && db.data == t
      else if current.value.id !in t.users then r == Err(PasswordFailed) && db.data == t
      else r == Ok(()) && db.data == UpdateUserRow(t, current.value.id, t.users[current.value.id].name, Some(newPassword))
  {
    var auth := RequireAuth(current);
    if auth.Err? {
      return Err(PasswordFailed);
    }
    if currentPassword == "" || newPassword == "" || confirmPassword == "" {
      return Err(PasswordRequired);
    }
    if newPassword != confirmPassword {
      return Err(PasswordMismatch);
    }
    var id := auth.value.id;
    if id !in db.data.users {
      return Err(PasswordFailed);
    }
    db.UpdateUser(id, db.data.users[id].name, Some(newPassword));
    r := Ok(());
  }

  /** Rewriting a user's name and password keeps the user's id, e-mail and role, and every
      other user. */
  lemma UserRowRewrite(t: Tables, id: Id, name: string, password: Option<string>)
    requires id in t.users
    ensures var t' := UpdateUserRow(t, id, name, password);
            && t'.users.Keys == t.users.Keys
            && t'.users[id] == User(t.users[id].id, name, t.users[id].email, password, t.users[id].role)
            && (forall u :: u in t.users && u != id ==> t'.users[u] == t.users[u])
            && t'.userByEmail == t.userByEmail && t'.members == t.members
  {
  }

  /** `updateNotificationSettings`: succeeds for any signed-in user; it takes no store and so
      changes none. */
  function UpdateNotificationSettings(current: Option<User>): (r: Result<()>)
    ensures r.Ok? <==> current.Some?
    ensures r.Err? ==> r.message == NotificationsFailed
  {
    if RequireAuth(current).Err? then Err(NotificationsFailed) else Ok(())
  }
}
