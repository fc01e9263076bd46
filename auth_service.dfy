/** The auth service: sign-up creates the auth user and then its profile
    row, signing out again if the row cannot be written; sign-in and
    sign-out throw the provider's error. */
module AuthService {
  import opened Outcomes

  datatype SignUpData = SignUpData(email: string, password: string, username: string, fullName: string)

  /** The row sign-up inserts into `profiles`. */
  datatype ProfileRow = ProfileRow(id: string, username: string, fullName: string)

  /** The remote calls of this service. */
  datatype AuthCall =
    | AuthSignUp(email: string, password: string)
    | InsertProfileRow(row: ProfileRow)
    | AuthSignIn(email: string, password: string)
    | AuthSignOut

  /** The `{ user, error: null }` object a successful call returns. */
  datatype AuthResult = AuthResult(user: Option<User>)

  /** The profile row for a new auth user. */
  function NewProfileRow(user: User, d: SignUpData): (row: ProfileRow)
    ensures row.id == user.id && row.username == d.username && row.fullName == d.fullName
  {
    ProfileRow(user.id, d.username, d.fullName)
  }

  /** The catch block of sign-up: sign out, then rethrow the insert error,
      unless awaiting the sign-out itself rejects. An error the sign-out
      returns is not looked at. */
  function Compensate(calls: seq<AuthCall>, insertError: Error, signOut: Reply<()>): (run: Traced<AuthCall, AuthResult>)
    ensures run.calls == calls + [AuthSignOut]
    ensures run.result.Threw?
    ensures signOut.Resolved? ==> run.result.error == insertError
    ensures signOut.Rejected? ==> run.result.error == signOut.reason
  {
    Traced(calls + [AuthSignOut], if signOut.Rejected? then Threw(signOut.reason) else Threw(insertError))
  }

  /** `signUp`, with the outcomes of the provider sign-up, the profile insert
      and the compensating sign-out. */
  function SignUp(d: SignUpData, signUp: Reply<User>, insert: Reply<()>, signOut: Reply<()>): (run: Traced<AuthCall, AuthResult>)
    ensures |run.calls| >= 1 && run.calls[0] == AuthSignUp(d.email, d.password)
    ensures run.result.Returned? ==> signUp.Resolved? && signUp.data.Some? && run.result.value == AuthResult(signUp.data)
  {
    var first := [AuthSignUp(d.email, d.password)];
    match signUp
    case Rejected(e) => Traced(first, Threw(e))
    case Resolved(data, error) =>
      if error.Some? then Traced(first, Threw(error.value))
      else if data.None? then Traced(first, Threw(PlainError("Failed to create user")))
      else
        var calls := first + [InsertProfileRow(NewProfileRow(data.value, d))];
        match insert
        case Rejected(e) => Compensate(calls, e, signOut)
        case Resolved(_, insertError) =>
          if insertError.Some? then Compensate(calls, insertError.value, signOut)
          else Traced(calls, Returned(AuthResult(data)))
  }

  /** `signIn`: throws the provider error, otherwise returns the user. */
  function SignIn(email: string, password: string, reply: Reply<User>): (run: Traced<AuthCall, AuthResult>)
    ensures run.calls == [AuthSignIn(email, password)]
    ensures run.result.Threw? <==> reply.Rejected? || reply.error.Some?
    ensures reply.Rejected? ==> run.result == Threw(reply.reason)
    ensures reply.Resolved? && reply.error.Some? ==> run.result == Threw(reply.error.value)
    ensures run.result.Returned? ==> run.result.value == AuthResult(reply.data)
  {
    var calls := [AuthSignIn(email, password)];
    match ThrowOnError(reply)
    case Threw(e) => Traced(calls, Threw(e))
    case Returned(user) => Traced(calls, Returned(AuthResult(user)))
  }

  /** `signOut`: throws the provider error. */
  function SignOut(reply: Reply<()>): (run: Traced<AuthCall, ()>)
    ensures run.calls == [AuthSignOut]
    ensures run.result.Threw? <==> reply.Rejected? || reply.error.Some?
    ensures reply.Rejected? ==> run.result == Threw(reply.reason)
    ensures reply.Resolved? && reply.error.Some? ==> run.result == Threw(reply.error.value)
  {
    Traced([AuthSignOut], if reply.Rejected? then Threw(reply.reason)
                          else if reply.error.Some? then Threw(reply.error.value)
                          else Returned(()))
  }

  /** A sign-up error from the provider, returned or rejected, is thrown as
      is, with no profile insert and no sign-out. */
  lemma ProviderErrorStopsSignUp(d: SignUpData, data: Option<User>, e: Error, insert: Reply<()>, signOut: Reply<()>)
    ensures SignUp(d, Resolved(data, Some(e)), insert, signOut) == Traced([AuthSignUp(d.email, d.password)], Threw(e))
    ensures SignUp(d, Rejected(e), insert, signOut) == Traced([AuthSignUp(d.email, d.password)], Threw(e))
  {
  }

  /** A sign-up result without a user throws 'Failed to create user'. */
  lemma MissingUserStopsSignUp(d: SignUpData, insert: Reply<()>, signOut: Reply<()>)
    ensures SignUp(d, Resolved(None, None), insert, signOut).result == Threw(PlainError("Failed to create user"))
    ensures SignUp(d, Resolved(None, None), insert, signOut).calls == [AuthSignUp(d.email, d.password)]
  {
  }

  /** Once the auth user exists, the profile row carries its id, the username
      and the full name; the sign-out is issued exactly when the insert fails,
      and then the insert's error is what is thrown, unless the sign-out
      itself rejects, in which case its rejection is thrown instead. */
  lemma SignUpCompensation(d: SignUpData, u: User, insert: Reply<()>, signOut: Reply<()>)
    ensures var run := SignUp(d, Resolved(Some(u), None), insert, signOut);
            var inserted := [AuthSignUp(d.email, d.password), InsertProfileRow(ProfileRow(u.id, d.username, d.fullName))];
            && (AuthSignOut in run.calls <==> insert.Rejected? || insert.error.Some?)
            && (run.result.Returned? <==> !(insert.Rejected? || insert.error.Some?))
            && (run.result.Returned? ==> run == Traced(inserted, Returned(AuthResult(Some(u)))))
            && (run.result.Threw? ==> run.calls == inserted + [AuthSignOut])
            && (run.result.Threw? && signOut.Resolved? ==>
                  run.result.error == (if insert.Rejected? then insert.reason else insert.error.value))
            && (run.result.Threw? && signOut.Rejected? ==> run.result.error == signOut.reason)
  {
    var run := SignUp(d, Resolved(Some(u), None), insert, signOut);
    var inserted := [AuthSignUp(d.email, d.password), InsertProfileRow(ProfileRow(u.id, d.username, d.fullName))];
    if insert.Rejected? || insert.error.Some? {
      assert run.calls == inserted + [AuthSignOut];
      assert run.calls[2] == AuthSignOut;
    } else {
      assert run.calls == inserted;
    }
  }

  /** Sign-up never signs out unless a profile insert was issued before. */
  lemma SignOutOnlyAfterInsert(d: SignUpData, signUp: Reply<User>, insert: Reply<()>, signOut: Reply<()>)
    ensures var run := SignUp(d, signUp, insert, signOut);
            AuthSignOut in run.calls ==> |run.calls| == 3 && run.calls[1].InsertProfileRow? && run.calls[2] == AuthSignOut
  {
  }
}
