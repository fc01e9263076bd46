/** The profile service: each function issues its store calls and maps the
    reply to a returned value or a thrown error. Only `GetProfileById` turns
    the store's "no row" error into a `null` result. */
module ProfileService {
  import opened Outcomes

  datatype Profile = Profile(id: string, username: string, fullName: string, bio: Option<string>, avatarUrl: Option<string>)

  /** The editable fields the profile editor sends as `updates`. */
  datatype ProfileUpdate = ProfileUpdate(fullName: string, bio: string, avatarUrl: string)

  /** The remote calls of this service. */
  datatype ProfileCall =
    | GetAuthUser
    | SelectProfile(id: string)
    | InsertProfile(profile: Profile)
    | UpdateProfile(id: string, updates: ProfileUpdate)

  /** The store's error code for "`.single()` found no row". */
  const NotFoundCode := "PGRST116"

  predicate IsNotFound(reply: Reply<Profile>) {
    reply.Resolved? && reply.error.Some? && reply.error.value.code == Some(NotFoundCode)
  }

  /** `getProfileById(id)`: one select by id; not-found becomes `null`,
      every other error is thrown unchanged, otherwise the row is returned. */
  function GetProfileById(id: string, reply: Reply<Profile>): (run: Traced<ProfileCall, Option<Profile>>)
    ensures run.calls == [SelectProfile(id)]
    ensures IsNotFound(reply) ==> run.result == Returned(None)
    ensures !IsNotFound(reply) ==> run.result == ThrowOnError(reply)
  {
    Traced([SelectProfile(id)], if IsNotFound(reply) then Returned(None) else ThrowOnError(reply))
  }

  /** `getCurrentProfile()`: asks the auth provider for the user, throws
      'Not authenticated' before any query when there is none, and otherwise
      selects that user's row; every error, not-found included, is thrown. */
  function GetCurrentProfile(auth: Reply<User>, reply: Reply<Profile>): (run: Traced<ProfileCall, Option<Profile>>)
    ensures auth.Rejected? ==> run == Traced([GetAuthUser], Threw(auth.reason))
    ensures auth.Resolved? && auth.data.None? ==> run == Traced([GetAuthUser], Threw(PlainError("Not authenticated")))
    ensures auth.Resolved? && auth.data.Some? ==>
              run == Traced([GetAuthUser, SelectProfile(auth.data.value.id)], ThrowOnError(reply))
  {
    match auth
    case Rejected(e) => Traced([GetAuthUser], Threw(e))
    case Resolved(data, _) =>
      if data.None? then Traced([GetAuthUser], Threw(PlainError("Not authenticated")))
      else Traced([GetAuthUser, SelectProfile(data.value.id)], ThrowOnError(reply))
  }

  /** `createProfile(profile)`: one insert of the given row. */
  function CreateProfile(profile: Profile, reply: Reply<Profile>): (run: Traced<ProfileCall, Option<Profile>>)
    ensures run.calls == [InsertProfile(profile)]
    ensures run.result.Threw? <==> reply.Rejected? || reply.error.Some?
    ensures reply.Rejected? ==> run.result == Threw(reply.reason)
    ensures reply.Resolved? && reply.error.Some? ==> run.result == Threw(reply.error.value)
    ensures run.result.Returned? ==> run.result.value == reply.data
  {
    Traced([InsertProfile(profile)], ThrowOnError(reply))
  }

  /** `updateProfile(id, updates)`: one update of the row with that id. */
  function UpdateProfileById(id: string, updates: ProfileUpdate, reply: Reply<Profile>): (run: Traced<ProfileCall, Option<Profile>>)
    ensures run.calls == [UpdateProfile(id, updates)]
    ensures run.result.Threw? <==> reply.Rejected? || reply.error.Some?
    ensures reply.Rejected? ==> run.result == Threw(reply.reason)
    ensures reply.Resolved? && reply.error.Some? ==> run.result == Threw(reply.error.value)
    ensures run.result.Returned? ==> run.result.value == reply.data
  {
    Traced([UpdateProfile(id, updates)], ThrowOnError(reply))
  }

  /** The two lookups agree on the signed-in user's own row except on
      not-found: by id it is a `null` result, as the current profile it is
      thrown. */
  lemma LookupsDifferOnlyOnNotFound(u: User, authError: Option<Error>, reply: Reply<Profile>)
    ensures var byId := GetProfileById(u.id, reply).result;
            var current := GetCurrentProfile(Resolved(Some(u), authError), reply).result;
            (IsNotFound(reply) ==> byId == Returned(None) && current.Threw? && current.error.code == Some(NotFoundCode))
            && (!IsNotFound(reply) ==> byId == current)
  {
  }

  /** A lookup by id throws exactly the errors other than not-found, and
      returns `null` only for not-found or an empty `data`. */
  lemma ByIdThrowsIff(id: string, reply: Reply<Profile>)
    ensures GetProfileById(id, reply).result.Threw? <==>
              reply.Rejected? || (reply.error.Some? && reply.error.value.code != Some(NotFoundCode))
    ensures GetProfileById(id, reply).result == Returned(None) <==>
              IsNotFound(reply) || (reply.Resolved? && reply.error.None? && reply.data.None?)
  {
  }
}
