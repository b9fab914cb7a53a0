/** The authorisation decision of src/lib/data-cache.ts (`verifyUserAuthorization`). */
module Auth {
  import opened Entities

  /** The actor's profile exists, has role admin and is not blocked. */
  predicate IsUnblockedAdmin(users: map<string, UserRecord>, actor: string) {
    actor in users && users[actor].role == Admin && !users[actor].isBlocked
  }

  /**
   * With the admin role required only an unblocked admin passes, even acting
   * on their own records; otherwise acting on one's own records passes too.
   */
  function VerifyUserAuthorization(users: map<string, UserRecord>, actor: string, target: string, requireAdmin: bool): (ok: bool)
    ensures requireAdmin ==> (ok <==> IsUnblockedAdmin(users, actor))
    ensures !requireAdmin ==> (ok <==> actor == target || IsUnblockedAdmin(users, actor))
  {
    if requireAdmin then
      if actor in users then users[actor].role == Admin && !users[actor].isBlocked else false
    else if actor == target then
      true
    else if actor in users then
      users[actor].role == Admin && !users[actor].isBlocked
    else
      false
  }

  /**
   * The gate in front of every guarded operation: `currentUserId && !verify(...)`
   * throws, so an absent or empty actor id is not checked at all.
   */
  function Permits(users: map<string, UserRecord>, actor: string, target: string, requireAdmin: bool): (ok: bool)
    ensures actor == "" ==> ok
    ensures actor != "" && requireAdmin ==> (ok <==> IsUnblockedAdmin(users, actor))
    ensures actor != "" && !requireAdmin ==> (ok <==> actor == target || IsUnblockedAdmin(users, actor))
  {
    actor == "" || VerifyUserAuthorization(users, actor, target, requireAdmin)
  }

  /** Whoever passes the admin check also passes the self-service check. */
  lemma AdminPassesSelfService(users: map<string, UserRecord>, actor: string, target: string)
    ensures VerifyUserAuthorization(users, actor, target, true) ==> VerifyUserAuthorization(users, actor, target, false)
  {
  }

  /** Acting on one's own records does not satisfy a required admin role. */
  lemma SelfAccessIsNotAdmin(actor: string)
    ensures !VerifyUserAuthorization(map[actor := UserRecord(User, false, 0.0, 0, 0.0)], actor, actor, true)
    ensures VerifyUserAuthorization(map[actor := UserRecord(User, false, 0.0, 0, 0.0)], actor, actor, false)
  {
  }

  /** A blocked admin is refused whenever it acts on someone else's records. */
  lemma BlockedAdminRefused(users: map<string, UserRecord>, actor: string, target: string, requireAdmin: bool)
    requires actor in users && users[actor].isBlocked
    requires requireAdmin || actor != target
    ensures !VerifyUserAuthorization(users, actor, target, requireAdmin)
  {
  }
}
