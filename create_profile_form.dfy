/** The form shown to a signed-in user without a profile: it creates the
    row under the user's own id and tells the page on success. */
module CreateProfileForm {
  import opened Outcomes
  import ProfileService

  /** The form's values: username and full name are required, bio and avatar
      URL are optional. */
  datatype CreateProfileData = CreateProfileData(username: string, fullName: string, bio: Option<string>, avatarUrl: Option<string>)

  /** The gates a submit passes before `onSubmit` runs: the browser's check
      of the `type="url"` avatar field, which lets an empty value through
      (`isUrl` is the browser's URL grammar), then the form library's
      `required` rules on username and full name. A profile created from a
      form that passed has a username, a full name, and an avatar URL that
      is absent, empty or well-formed. */
  predicate PassesRules(isUrl: string -> bool, data: CreateProfileData): (ok: bool)
    ensures ok ==> forall u: User :: var p := NewProfile(u, data);
              p.username != "" && p.fullName != "" && (Truthy(p.avatarUrl) ==> isUrl(p.avatarUrl.value))
  {
    // The browser's gate on the `type="url"` input.
    && (!Truthy(data.avatarUrl) || isUrl(data.avatarUrl.value))
    // The form library's gate: its `required` rules.
    && data.username != "" && data.fullName != ""
  }

  /** `{ id: user.id, ...data }`. */
  function NewProfile(user: User, data: CreateProfileData): (p: ProfileService.Profile)
    ensures p.id == user.id
    ensures p.username == data.username && p.fullName == data.fullName
    ensures p.bio == data.bio && p.avatarUrl == data.avatarUrl
  {
    ProfileService.Profile(user.id, data.username, data.fullName, data.bio, data.avatarUrl)
  }

  class CreateProfileForm {
    var isSubmitting: bool

    constructor ()
      ensures !isSubmitting
    {
      isSubmitting := false;
    }

    /** `handleSubmit(onSubmit)`, with how the awaited `createProfile` settled.
        Without a user, with a required field empty or with a malformed
        avatar URL, nothing is created.
        On success `onProfileCreated` is called; on failure it is not and an
        error is shown. */
    method Submit(isUrl: string -> bool, user: Option<User>, data: CreateProfileData, outcome: Settled<Option<ProfileService.Profile>>)
      returns (created: Option<ProfileService.Profile>, notified: bool, toast: Option<Toast>)
      modifies this
      ensures created == if PassesRules(isUrl, data) && user.Some? then Some(NewProfile(user.value, data)) else None
      ensures notified <==> created.Some? && outcome.Returned?
      ensures created.Some? ==> !isSubmitting
      ensures created.None? ==> isSubmitting == old(isSubmitting) && toast == None
      ensures notified ==> toast == Some(SuccessToast("Profile created successfully!"))
      ensures created.Some? && !notified ==> toast == Some(ErrorToast("Failed to create profile"))
    {
      created, notified, toast := None, false, None;
      if !PassesRules(isUrl, data) || user.None? {
        return;
      }
      isSubmitting := true;
      created := Some(NewProfile(user.value, data));
      if outcome.Returned? {
        toast := Some(SuccessToast("Profile created successfully!"));
        notified := true;
      } else {
        toast := Some(ErrorToast("Failed to create profile"));
      }
      isSubmitting := false;
    }
  }
}
