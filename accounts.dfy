/** Accounts: the field rules of `CustomUserManager.create_user` and
    `create_superuser`, and the registration form's email uniqueness check
    and username default. Accounts log in by email; the username is only a
    display name. */
module Accounts {
  import opened Wrappers
  import opened Text

  /** The account fields these rules set (password handling is not
      modelled). */
  datatype User = User(email: string, username: string, isStaff: bool, isSuperuser: bool, isActive: bool)

  /** The keyword arguments a manager call receives; an absent one is
      `None`. */
  datatype ExtraFields = ExtraFields(username: Option<string>, isStaff: Option<bool>,
                                     isSuperuser: Option<bool>, isActive: Option<bool>)

  datatype AccountError = EmailRequired | NotStaff | NotSuperuser | EmailTaken

  /** `create_user`: an empty email is refused; otherwise the account gets
      the normalised email (`normalize` stands for Django's
      `normalize_email`), the given fields, and the model defaults: not
      staff, not superuser, active, blank username. */
  function CreateUser(email: string, extra: ExtraFields, normalize: string -> string): (r: Result<User, AccountError>)
    ensures r.Err? <==> email == []
    ensures r.Err? ==> r.error == EmailRequired
    ensures r.Ok? ==> r.value.email == normalize(email)
    ensures r.Ok? ==> r.value.username == extra.username.GetOr("")
    ensures r.Ok? ==> r.value.isStaff == (extra.isStaff == Some(true))
    ensures r.Ok? ==> r.value.isSuperuser == (extra.isSuperuser == Some(true))
    ensures r.Ok? ==> r.value.isActive == (extra.isActive != Some(false))
  {
    if email == [] then Err(EmailRequired)
    else Ok(User(normalize(email), extra.username.GetOr(""), extra.isStaff.GetOr(false),
                 extra.isSuperuser.GetOr(false), extra.isActive.GetOr(true)))
  }

  /** `create_superuser`: the staff, superuser and active flags default to
      true, an explicit false for staff or superuser is refused (staff is
      checked first), a blank username becomes the email's local part, and
      the rest is `create_user`. */
  function CreateSuperuser(email: string, extra: ExtraFields, normalize: string -> string): (r: Result<User, AccountError>)
    ensures r == Err(NotStaff) <==> extra.isStaff == Some(false)
    ensures r == Err(NotSuperuser) <==> extra.isStaff != Some(false) && extra.isSuperuser == Some(false)
    ensures r == Err(EmailRequired) <==>
      extra.isStaff != Some(false) && extra.isSuperuser != Some(false) && email == []
    ensures r.Ok? ==> r.value.isStaff && r.value.isSuperuser && r.value.isActive == (extra.isActive != Some(false))
    ensures r.Ok? ==> r.value.email == normalize(email)
    ensures r.Ok? ==>
      r.value.username == (if extra.username.None? || extra.username == Some("") then EmailPrefix(email) else extra.username.value)
  {
    if extra.isStaff == Some(false) then Err(NotStaff)
    else if extra.isSuperuser == Some(false) then Err(NotSuperuser)
    else
      var named := extra.(isStaff := Some(true), isSuperuser := Some(true),
                          isActive := Some(extra.isActive.GetOr(true)),
                          username := if extra.username.None? || extra.username == Some("")
                                      then Some(EmailPrefix(email)) else extra.username);
      CreateUser(email, named, normalize)
  }

  /** A superuser made without a username is named after the part of the
      email before its `@`, which is a prefix of the email. */
  lemma SuperuserDefaultName(email: string, normalize: string -> string)
    requires email != []
    ensures var r := CreateSuperuser(email, ExtraFields(None, None, None, None), normalize);
      r.Ok? && r.value.isStaff && r.value.isSuperuser && r.value.isActive
      && '@' !in r.value.username
      && email == r.value.username + email[|r.value.username|..]
  {
    var r := CreateSuperuser(email, ExtraFields(None, None, None, None), normalize);
    assert r.value.username == EmailPrefix(email);
  }

  // ---------------------------------------------------------------------
  // CustomUserCreationForm
  // ---------------------------------------------------------------------

  /** `clean_email`: an address some account already has is refused. */
  function CleanRegistrationEmail(email: string, registered: set<string>): (r: Result<string, AccountError>)
    ensures r.Ok? <==> email !in registered
    ensures r.Ok? ==> r.value == email
    ensures r.Err? ==> r.error == EmailTaken
  {
    if email in registered then Err(EmailTaken) else Ok(email)
  }

  /** `save`: a blank username is replaced by the email's local part;
      nothing else changes. */
  function SaveRegistration(user: User): (r: User)
    ensures user.username != [] ==> r == user
    ensures user.username == [] ==> r == user.(username := EmailPrefix(user.email))
  {
    if user.username == [] then user.(username := EmailPrefix(user.email)) else user
  }

  /** The default name is never blank unless the email starts with `@`, and
      saving again changes nothing more. */
  lemma SaveRegistrationShape(user: User)
    ensures user.email != [] && user.email[0] != '@' ==> SaveRegistration(user).username != []
    ensures SaveRegistration(user).username != [] ==> SaveRegistration(SaveRegistration(user)) == SaveRegistration(user)
  {
    if user.username == [] && user.email != [] && user.email[0] != '@' {
      var p := EmailPrefix(user.email);
      assert '@' in user.email ==> user.email[|p|] == '@';
    }
  }

  /** A registration for `test@example.com` with no username gets the
      username `test`. */
  lemma SaveRegistrationExample()
    ensures SaveRegistration(User("test@example.com", "", false, false, true)).username == "test"
  {
    assert "test@example.com" == "test" + ['@'] + "example.com";
    FirstPieceOfJoin("test", '@', "example.com");
  }
}
