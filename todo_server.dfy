/**
 * Server-side rules of the to-do collection: the privacy filter every publication wraps
 * around the caller's filter, the completed-in-period query, and the update/remove hooks
 * that authorise the caller against the stored document and maintain `concludedAt`.
 */
module ToDoServer {
  import opened Wrappers
  import opened ToDos

  /** `Meteor.Error(error, reason)`. */
  datatype MeteorError = MeteorError(error: string, reason: string)

  /** `context.user`; an empty `_id` is as falsy as a missing one. */
  datatype Caller = Caller(id: Option<string>)

  const NotAuthenticated := MeteorError("acesso-negado", "Usuário não autenticado")
  const NotFound := MeteorError("id-invalido", "Tarefa não encontrada")
  const MayNotUpdate := MeteorError("acesso-negado", "Você só pode alterar tarefas criadas por você ou das quais você é responsável.")
  const MayNotRemove := MeteorError("acesso-negado", "Você só pode excluir tarefas criadas por você ou das quais você é responsável.")

  predicate Authenticated(user: Option<Caller>) {
    user.Some? && user.value.id.Some? && user.value.id.value != ""
  }

  /** The caller created the stored to-do or is responsible for it. */
  predicate OwnsOrAssigned(uid: string, stored: ToDo) {
    stored.ownerId == Some(uid) || stored.assigneeId == Some(uid)
  }

  // ---------------------------------------------------------------- publications

  /** `{$or: [{type: 'shared'}, {ownerId: userId}]}`. */
  function PrivacyFilter(userId: Option<string>): Filter {
    Filter(map[], [map[TypeKey := Is(Some(Text("shared")))], map[OwnerKey := Is(TextOf(userId))]], [])
  }

  /** `{$and: [filter, privacyFilter]}`, as every to-do publication builds it. */
  function PublicationFilter(filter: Filter, userId: Option<string>): Filter {
    AllOf([filter, PrivacyFilter(userId)])
  }

  /** A publication returns only what the caller's filter selects among shared to-dos and the caller's own. */
  lemma PublicationShowsOnlySharedOrOwn(filter: Filter, userId: Option<string>, t: ToDo, like: (string, string) -> bool)
    ensures Matches(PublicationFilter(filter, userId), t, like) <==>
      Matches(filter, t, like) && (t.kind == Some("shared") || t.ownerId == userId)
  {
    var p := PrivacyFilter(userId);
    TextOfInjective(t.ownerId, userId);
    assert Matches(p, t, like) <==> t.kind == Some("shared") || t.ownerId == userId by {
      if t.kind == Some("shared") { assert Holds(p.anyOf[0], t, like); }
      if t.ownerId == userId { assert Holds(p.anyOf[1], t, like); }
      if Matches(p, t, like) {
        var i :| 0 <= i < |p.anyOf| && Holds(p.anyOf[i], t, like);
        if i == 0 { assert CondHolds(p.anyOf[0][TypeKey], FieldOf(t, TypeKey), like); }
        else { assert CondHolds(p.anyOf[1][OwnerKey], FieldOf(t, OwnerKey), like); }
      }
    }
    var parts := [filter, p];
    AllOfMatches(parts, t, like);
    assert parts[0] == filter && parts[1] == p;
  }

  /** `context.user ? context.user._id : 'unknown'`. */
  function MethodUserId(user: Option<Caller>): Option<string> {
    if user.Some? then user.value.id else Some("unknown")
  }

  /**
   * `toDoListCompletedInPeriod`'s query for one period: concluded at or after `start`, and
   * shared (team counts) or assigned to the caller (personal counts), the caller's id being
   * `MethodUserId(user)`.
   */
  function CompletedInPeriodFilter(filter: Filter, start: int, isTeam: bool, user: Option<Caller>): Filter {
    AllOf([filter, PeriodFilter(start), CountScopeFilter(isTeam, MethodUserId(user))])
  }

  /** `{status: 'Concluída', concludedAt: {$gte: start}}`. */
  function PeriodFilter(start: int): Filter {
    Filter(map[StatusKey := Is(Some(StatusValue(Concluded))), ConcludedAtKey := AtLeast(start)], [], [])
  }

  /** `{type: 'shared'}` for team counts, `{assigneeId: userId}` for personal counts. */
  function CountScopeFilter(isTeam: bool, userId: Option<string>): Filter {
    if isTeam then Filter(map[TypeKey := Is(Some(Text("shared")))], [], [])
    else Filter(map[AssigneeKey := Is(TextOf(userId))], [], [])
  }

  lemma PeriodFilterMeans(start: int, t: ToDo, like: (string, string) -> bool)
    ensures Matches(PeriodFilter(start), t, like) <==> t.status == Some(Concluded) && t.concludedAt.At? && t.concludedAt.ms >= start
  {
    TwoCondsHold(StatusKey, Is(Some(StatusValue(Concluded))), ConcludedAtKey, AtLeast(start), t, like);
  }

  lemma CountScopeFilterMeans(isTeam: bool, userId: Option<string>, t: ToDo, like: (string, string) -> bool)
    ensures Matches(CountScopeFilter(isTeam, userId), t, like) <==> if isTeam then t.kind == Some("shared") else t.assigneeId == userId
  {
    TextOfInjective(t.assigneeId, userId);
    TextOfInjective(t.kind, Some("shared"));
    if isTeam {
      OneCondHolds(TypeKey, Is(Some(Text("shared"))), t, like);
    } else {
      OneCondHolds(AssigneeKey, Is(TextOf(userId)), t, like);
    }
  }

  /**
   * The period count selects the caller's filter's concluded to-dos concluded since the start:
   * shared ones for the team, and for the personal count those assigned to the caller, or to
   * the literal id 'unknown' when the method has no caller.
   */
  lemma CompletedInPeriodSelects(filter: Filter, start: int, isTeam: bool, user: Option<Caller>, t: ToDo, like: (string, string) -> bool)
    ensures Matches(CompletedInPeriodFilter(filter, start, isTeam, user), t, like) <==>
      && Matches(filter, t, like)
      && t.status == Some(Concluded)
      && t.concludedAt.At? && t.concludedAt.ms >= start
      && (if isTeam then t.kind == Some("shared")
          else if user.Some? then t.assigneeId == user.value.id
          else t.assigneeId == Some("unknown"))
  {
    var userId := MethodUserId(user);
    var parts := [filter, PeriodFilter(start), CountScopeFilter(isTeam, userId)];
    AllOfMatches(parts, t, like);
    PeriodFilterMeans(start, t, like);
    CountScopeFilterMeans(isTeam, userId, t, like);
    assert parts[0] == filter && parts[1] == PeriodFilter(start) && parts[2] == CountScopeFilter(isTeam, userId);
  }

  // ---------------------------------------------------------------- hooks

  /**
   * `beforeUpdate(docObj, context)`: the three guards in order (`stored` is what the lookup by
   * `docObj._id` returned), then the `concludedAt` rule written into the submitted document.
   */
  function BeforeUpdate(docObj: ToDo, user: Option<Caller>, stored: Option<ToDo>, now: int): Result<ToDo, MeteorError> {
    if !Authenticated(user) then Failure(NotAuthenticated)
    else if stored.None? then Failure(NotFound)
    else if !OwnsOrAssigned(user.value.id.value, stored.value) then Failure(MayNotUpdate)
    else if docObj.status == Some(Concluded) && stored.value.status != Some(Concluded) then
      Success(docObj.(concludedAt := At(now)))
    else if docObj.status != Some(Concluded) && stored.value.status == Some(Concluded) then
      Success(docObj.(concludedAt := NullDate))
    else Success(docObj)
  }

  /** `beforeRemove(docObj, context)`: the same three guards, with the removal wording. */
  function BeforeRemove(docObj: ToDo, user: Option<Caller>, stored: Option<ToDo>): Result<ToDo, MeteorError> {
    if !Authenticated(user) then Failure(NotAuthenticated)
    else if stored.None? then Failure(NotFound)
    else if !OwnsOrAssigned(user.value.id.value, stored.value) then Failure(MayNotRemove)
    else Success(docObj)
  }

  /**
   * The guards fire in a fixed order: no authenticated caller first (whatever the lookup
   * found), then a missing document, then a caller who neither owns nor is assigned the
   * stored document; otherwise the update goes ahead.
   */
  lemma BeforeUpdateGuards(docObj: ToDo, user: Option<Caller>, stored: Option<ToDo>, now: int)
    ensures var r := BeforeUpdate(docObj, user, stored, now);
      && (r == Failure(NotAuthenticated) <==> !Authenticated(user))
      && (r == Failure(NotFound) <==> Authenticated(user) && stored.None?)
      && (r == Failure(MayNotUpdate) <==> Authenticated(user) && stored.Some? && !OwnsOrAssigned(user.value.id.value, stored.value))
      && (r.Success? <==> Authenticated(user) && stored.Some? && OwnsOrAssigned(user.value.id.value, stored.value))
  {
  }

  /**
   * Authorisation reads only the stored document: what the caller submits as `ownerId` or
   * `assigneeId` cannot grant or deny access.
   */
  lemma AuthorisationIgnoresSubmittedOwnership(docObj: ToDo, forged: ToDo, user: Option<Caller>, stored: Option<ToDo>, now: int)
    requires forged == docObj.(ownerId := forged.ownerId, assigneeId := forged.assigneeId)
    ensures BeforeUpdate(forged, user, stored, now).Success? <==> BeforeUpdate(docObj, user, stored, now).Success?
    ensures BeforeRemove(forged, user, stored).Success? <==> BeforeRemove(docObj, user, stored).Success?
  {
  }

  /**
   * The `concludedAt` rule on an authorised update: concluding sets it to now, reopening sets
   * it to null, and anything else leaves the submitted value alone; no other field changes.
   */
  lemma ConcludedAtTransition(docObj: ToDo, uid: string, stored: ToDo, now: int)
    requires uid != "" && OwnsOrAssigned(uid, stored)
    ensures var r := BeforeUpdate(docObj, Some(Caller(Some(uid))), Some(stored), now);
      && r.Success?
      && r.value == docObj.(concludedAt := r.value.concludedAt)
      && (docObj.status == Some(Concluded) && stored.status != Some(Concluded) ==> r.value.concludedAt == At(now))
      && (docObj.status != Some(Concluded) && stored.status == Some(Concluded) ==> r.value.concludedAt == NullDate)
      && ((docObj.status == Some(Concluded)) == (stored.status == Some(Concluded)) ==> r.value.concludedAt == docObj.concludedAt)
  {
  }

  /** `beforeRemove` fails exactly when `beforeUpdate` does, with the same error key. */
  lemma RemoveGuardsMatchUpdateGuards(docObj: ToDo, user: Option<Caller>, stored: Option<ToDo>, now: int)
    ensures BeforeRemove(docObj, user, stored).Failure? <==> BeforeUpdate(docObj, user, stored, now).Failure?
    ensures BeforeRemove(docObj, user, stored).Failure? ==>
      BeforeRemove(docObj, user, stored).error.error == BeforeUpdate(docObj, user, stored, now).error.error
    ensures BeforeRemove(docObj, user, stored).Success? ==> BeforeRemove(docObj, user, stored).value == docObj
  {
  }
}
