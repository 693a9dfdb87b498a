/**
 * Server-side rules of the user-profile collection: the registration duplicate check, the
 * status toggle, the ordered checks of e-mail code verification, code re-issue, role
 * normalisation on insert, audit stamping and the update authorisation hook. Database reads
 * are inputs and database writes are returned as values.
 */
module UserProfileServer {
  import opened Wrappers
  import opened Documents

  /** `Meteor.Error(error, reason)`; the error is a string key or an HTTP status. */
  datatype ErrorKey = Key(name: string) | Status(code: int)
  datatype MeteorError = MeteorError(error: ErrorKey, reason: string)

  const Admin := "Administrador"
  const BaseRole := "Usuario"
  /** Minutes a verification code stays valid, in milliseconds. */
  const CodeLifetime := 30 * 60 * 1000

  /** The stored user profile, as far as these rules read or write it. */
  datatype Profile = Profile(
    id: Option<string>,
    email: string,
    username: string,
    status: Option<string>,
    roles: Option<seq<string>>,
    verificationCode: Option<string>,
    verificationCodeExpires: Option<int>)

  // ---------------------------------------------------------------- registration

  /** The Meteor account found by `{$or: [{'emails.address': email}, {username}]}`. */
  datatype Account = Account(username: string, emails: seq<string>)

  const UsernameTaken := MeteorError(Status(403), "Este nome de usuário já está em uso.")
  const EmailTaken := MeteorError(Status(403), "Este email já está cadastrado.")

  /** `registrarUserProfileNoMeteor`'s duplicate check; Success means the account may be created. */
  function RegistrationCheck(email: string, username: string, existing: Option<Account>): Result<(), MeteorError> {
    match existing
    case None => Success(())
    case Some(a) => if a.username == username then Failure(UsernameTaken) else Failure(EmailTaken)
  }

  /**
   * Registration is refused exactly when the lookup found an account; the message says the
   * username is taken when it is, and otherwise that the e-mail is (which it then is).
   */
  lemma RegistrationRefusesDuplicates(email: string, username: string, existing: Option<Account>)
    requires existing.Some? ==> existing.value.username == username || email in existing.value.emails
    ensures RegistrationCheck(email, username, existing).Success? <==> existing.None?
    ensures RegistrationCheck(email, username, existing) == Failure(UsernameTaken) <==>
      existing.Some? && existing.value.username == username
    ensures RegistrationCheck(email, username, existing) == Failure(EmailTaken) ==>
      existing.Some? && email in existing.value.emails && existing.value.username != username
  {
  }

  // ---------------------------------------------------------------- status toggle

  datatype StatusOutcome =
    | NoUser                    // no profile: no write, the method returns undefined
    | Changed(newStatus: string) // `$set: {status}` written, returns true
    | Denied(err: MeteorError)   // the write threw

  const WriteDenied := MeteorError(Key("Acesso negado"), "Vocẽ não tem permissão para alterar esses dados")

  /** `changeUserStatus(userId)`; `writeSucceeds` is whether the database accepted the update. */
  function ChangeUserStatus(user: Option<Profile>, writeSucceeds: bool): StatusOutcome {
    if user.None? then NoUser
    else
      var newStatus := if user.value.status != Some("active") then "active" else "disabled";
      if writeSucceeds then Changed(newStatus) else Denied(WriteDenied)
  }

  /** Active becomes disabled, anything else (including no status) becomes active; no user, no write. */
  lemma StatusToggle(user: Option<Profile>, writeSucceeds: bool)
    ensures ChangeUserStatus(user, writeSucceeds) == NoUser <==> user.None?
    ensures user.Some? && writeSucceeds ==>
      ChangeUserStatus(user, writeSucceeds) == Changed(if user.value.status == Some("active") then "disabled" else "active")
    ensures user.Some? && writeSucceeds ==>
      var p := user.value.(status := Some(ChangeUserStatus(user, writeSucceeds).newStatus));
      ChangeUserStatus(Some(p), true) == Changed(if user.value.status == Some("active") then "active" else "disabled")
  {
  }

  // ---------------------------------------------------------------- verification codes

  const UserNotFound := MeteorError(Key("user-not-found"), "Perfil do usuário não encontrado.")
  const NoCode := MeteorError(Key("no-code"), "Nenhum código de verificação encontrado.")
  const CodeExpired := MeteorError(Key("code-expired"), "O código de verificação expirou.")
  const InvalidCode := MeteorError(Key("invalid-code"), "Código de verificação inválido.")

  /** A stored code is truthy: present and non-empty; a stored expiry date is always truthy. */
  predicate HasCode(p: Profile) {
    p.verificationCode.Some? && p.verificationCode.value != "" && p.verificationCodeExpires.Some?
  }

  /**
   * `verifyCode(code, email)` against the profile the lookup by e-mail found. On success the
   * value is the profile as written back: active, with code and expiry unset.
   */
  function VerifyCode(profile: Option<Profile>, code: string, now: int): Result<Profile, MeteorError> {
    if profile.None? then Failure(UserNotFound)
    else
      var p := profile.value;
      if !HasCode(p) then Failure(NoCode)
      else if p.verificationCodeExpires.value < now then Failure(CodeExpired)
      else if p.verificationCode.value != code then Failure(InvalidCode)
      else Success(p.(status := Some("active"), verificationCode := None, verificationCodeExpires := None))
  }

  /**
   * The checks fire in a fixed order, the expiry test is strict (a code expiring exactly now
   * is accepted), and success activates the profile and clears the code.
   */
  lemma VerifyCodeOrder(profile: Option<Profile>, code: string, now: int)
    ensures var r := VerifyCode(profile, code, now);
      && (r == Failure(UserNotFound) <==> profile.None?)
      && (r == Failure(NoCode) <==> profile.Some? && !HasCode(profile.value))
      && (r == Failure(CodeExpired) <==> profile.Some? && HasCode(profile.value) && profile.value.verificationCodeExpires.value < now)
      && (r == Failure(InvalidCode) <==>
            profile.Some? && HasCode(profile.value) && now <= profile.value.verificationCodeExpires.value
            && profile.value.verificationCode.value != code)
      && (r.Success? <==>
            profile.Some? && HasCode(profile.value) && now <= profile.value.verificationCodeExpires.value
            && profile.value.verificationCode.value == code)
      && (r.Success? ==>
            && r.value.status == Some("active") && r.value.verificationCode.None? && r.value.verificationCodeExpires.None?
            && r.value == profile.value.(status := r.value.status, verificationCode := None, verificationCodeExpires := None))
  {
  }

  /** A code is used at most once: verifying again after a success finds no code. */
  lemma VerifiedCodeCannotBeReused(profile: Option<Profile>, code: string, now: int, later: int)
    requires VerifyCode(profile, code, now).Success?
    ensures VerifyCode(Some(VerifyCode(profile, code, now).value), code, later) == Failure(NoCode)
  {
  }

  /**
   * `resendCode(email)`: store the fresh code (`newCode`, drawn at random by the server) with an
   * expiry 30 minutes from now.
   */
  function ResendCode(profile: Option<Profile>, newCode: string, now: int): Result<Profile, MeteorError> {
    if profile.None? then Failure(UserNotFound)
    else Success(profile.value.(verificationCode := Some(newCode), verificationCodeExpires := Some(now + CodeLifetime)))
  }

  /**
   * Re-issue and verification round-trip: the re-issued code verifies at any time up to and
   * including 30 minutes later, and is refused as expired after that.
   */
  lemma ResendThenVerify(profile: Profile, newCode: string, now: int, at: int)
    requires newCode != ""
    ensures var issued := ResendCode(Some(profile), newCode, now);
      && issued.Success?
      && (at <= now + CodeLifetime ==> VerifyCode(Some(issued.value), newCode, at).Success?)
      && (at > now + CodeLifetime ==> VerifyCode(Some(issued.value), newCode, at) == Failure(CodeExpired))
  {
  }

  // ---------------------------------------------------------------- insert

  /** Role normalisation in `serverInsert`: absent roles become `['Usuario']`, else `'Usuario'` is appended once. */
  function NormalizeRoles(roles: Option<seq<string>>): (r: seq<string>)
    ensures BaseRole in r
    ensures roles.Some? ==> |roles.value| <= |r| <= |roles.value| + 1 && r[..|roles.value|] == roles.value
    ensures roles.Some? ==> forall x :: x in r <==> x in roles.value || x == BaseRole
    ensures roles.None? ==> r == [BaseRole]
  {
    match roles
    case None => [BaseRole]
    case Some(rs) => if BaseRole in rs then rs else rs + [BaseRole]
  }

  /** Normalising twice changes nothing more; a list already holding `'Usuario'` is kept as it is. */
  lemma NormalizeRolesIdempotent(roles: Option<seq<string>>)
    ensures NormalizeRoles(Some(NormalizeRoles(roles))) == NormalizeRoles(roles)
    ensures roles.Some? && BaseRole in roles.value ==> NormalizeRoles(roles) == roles.value
  {
  }

  /** Who `getUserServer()` said the caller is: a profile, whose `_id` is always set. */
  datatype ServerUser = ServerUser(id: string, roles: Option<seq<string>>)

  /**
   * `getUserServer(connection?)`: the stored profile whose e-mail is the signed-in account's,
   * or else an anonymous stand-in whose `_id` is generated (a nanoid, or the date followed by
   * the connection id, both non-empty) and whose only role is the public one (`publicRole`).
   * It never returns nothing.
   */
  function GetUserServer(profile: Option<ServerUser>, generatedId: string, publicRole: string): (u: ServerUser)
    requires generatedId != ""
    ensures profile.Some? ==> u == profile.value
    ensures profile.None? ==> u.id == generatedId && u.roles == Some([publicRole])
  {
    if profile.Some? then profile.value else ServerUser(generatedId, Some([publicRole]))
  }

  /**
   * `_includeAuditData(doc, action, defaultUser)`: on 'insert', `createdby` (the caller's id),
   * `createdat` and `lastupdate`; on any other action only `lastupdate`. `getUserServer` always
   * returns a profile, so the `defaultUser` fallback is never taken and is left out.
   */
  function IncludeAuditData(doc: Doc, action: string, user: ServerUser, now: int): (r: Doc)
    ensures r.id == doc.id
    ensures "lastupdate" in r.fields && r.fields["lastupdate"] == Date(now)
    ensures action == "insert" ==> "createdat" in r.fields && r.fields["createdat"] == Date(now)
    ensures action == "insert" ==> "createdby" in r.fields && r.fields["createdby"] == Str(user.id)
    ensures forall k :: k in doc.fields && k != "lastupdate" && (action == "insert" ==> k !in {"createdby", "createdat"}) ==>
      k in r.fields && r.fields[k] == doc.fields[k]
    ensures forall k :: k in r.fields ==> k in doc.fields || k == "lastupdate" || (action == "insert" && k in {"createdby", "createdat"})
  {
    if action == "insert" then
      Doc(doc.id, doc.fields["createdby" := Str(user.id)]["createdat" := Date(now)]["lastupdate" := Date(now)])
    else Doc(doc.id, doc.fields["lastupdate" := Date(now)])
  }

  /** An anonymous insert is attributed to the stand-in's generated id, never to a fixed default name. */
  lemma AnonymousInsertCreatedBy(doc: Doc, generatedId: string, publicRole: string, now: int)
    requires generatedId != ""
    ensures var r := IncludeAuditData(doc, "insert", GetUserServer(None, generatedId, publicRole), now);
      r.fields["createdby"] == Str(generatedId) && r.fields["createdby"] != Str("")
  {
  }

  // ---------------------------------------------------------------- update hook

  const UpdateDenied := MeteorError(Key("Acesso negado"), "Vocẽ não tem permissão para alterar esses dados")

  /** The submitted profile update, as far as the hook reads it. */
  datatype ProfileUpdate = ProfileUpdate(id: Option<string>, roles: Option<seq<string>>, rest: map<string, Value>)

  predicate IsAdmin(u: ServerUser) {
    u.roles.Some? && Admin in u.roles.value
  }

  /** A falsy `_id`: undefined or empty. */
  predicate MissingId(d: ProfileUpdate) {
    d.id.None? || d.id.value == ""
  }

  /**
   * `beforeUpdate(docObj, context)` as written: the caller-is-someone-else test and the
   * strip-roles test both require the caller to have a `roles` array, so a caller without one
   * passes both.
   */
  function BeforeUpdateAsWritten(docObj: ProfileUpdate, user: ServerUser): Result<ProfileUpdate, MeteorError> {
    if MissingId(docObj) || (Some(user.id) != docObj.id && user.roles.Some? && Admin !in user.roles.value)
    then Failure(UpdateDenied)
    else if user.roles.Some? && Admin !in user.roles.value then Success(docObj.(roles := None))
    else Success(docObj)
  }

  /**
   * The hook as its comment and error message intend: only the target user or an
   * administrator may update a profile, and only an administrator may change roles; a caller
   * without roles is an ordinary, non-administrator caller.
   */
  function BeforeUpdate(docObj: ProfileUpdate, user: ServerUser): Result<ProfileUpdate, MeteorError> {
    if MissingId(docObj) || (Some(user.id) != docObj.id && !IsAdmin(user)) then Failure(UpdateDenied)
    else if !IsAdmin(user) then Success(docObj.(roles := None))
    else Success(docObj)
  }

  /** Both versions agree whenever the caller has a `roles` array (the usual case). */
  lemma BeforeUpdateAgreesWithRoles(docObj: ProfileUpdate, user: ServerUser)
    requires user.roles.Some?
    ensures BeforeUpdateAsWritten(docObj, user) == BeforeUpdate(docObj, user)
  {
  }

  /**
   * As written, a caller whose profile has no `roles` may update someone else's profile and
   * keep the `roles` it submits.
   */
  lemma RolelessCallerEscalates()
    ensures var docObj := ProfileUpdate(Some("victim"), Some([Admin]), map[]);
      var caller := ServerUser("intruder", None);
      && BeforeUpdateAsWritten(docObj, caller) == Success(docObj)
      && BeforeUpdate(docObj, caller) == Failure(UpdateDenied)
  {
  }

  /**
   * The intended rule: a profile without `_id` is refused; a signed-in caller who is neither
   * the target nor an administrator is refused; whatever passes from a non-administrator
   * carries no `roles`; everything else is passed on unchanged.
   */
  lemma BeforeUpdateAuthorisation(docObj: ProfileUpdate, user: ServerUser)
    ensures MissingId(docObj) ==> BeforeUpdate(docObj, user) == Failure(UpdateDenied)
    ensures !IsAdmin(user) && Some(user.id) != docObj.id ==> BeforeUpdate(docObj, user) == Failure(UpdateDenied)
    ensures BeforeUpdate(docObj, user).Success? <==> !MissingId(docObj) && (Some(user.id) == docObj.id || IsAdmin(user))
    ensures BeforeUpdate(docObj, user).Success? && !IsAdmin(user) ==> BeforeUpdate(docObj, user).value == docObj.(roles := None)
    ensures BeforeUpdate(docObj, user).Success? && IsAdmin(user) ==> BeforeUpdate(docObj, user).value == docObj
  {
  }

  /**
   * As written, an anonymous caller (the public stand-in) may update only the profile whose
   * `_id` is its own generated id, and never its roles.
   */
  lemma AnonymousCallerIsOrdinary(docObj: ProfileUpdate, generatedId: string, publicRole: string)
    requires generatedId != "" && publicRole != Admin
    ensures var r := BeforeUpdateAsWritten(docObj, GetUserServer(None, generatedId, publicRole));
      && (r.Success? <==> docObj.id == Some(generatedId))
      && (r.Success? ==> r.value == docObj.(roles := None))
  {
  }
}
