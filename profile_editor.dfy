/** The profile editor dialog: its initial form values and the submit flow
    that updates the row and then calls `onUpdate` and `onClose`, in that
    order. */
module ProfileEditor {
  import opened Outcomes
  import ProfileService

  /** A callback of the dialog's owner, in the order they are called. */
  datatype Callback = OnUpdate(profile: Option<ProfileService.Profile>) | OnClose

  /** `defaultValues`: the full name as stored; a missing bio or avatar URL
      becomes the empty string. */
  function DefaultValues(p: ProfileService.Profile): (v: ProfileService.ProfileUpdate)
    ensures v.fullName == p.fullName
    ensures v.bio == (if p.bio.Some? then p.bio.value else "")
    ensures v.avatarUrl == (if p.avatarUrl.Some? then p.avatarUrl.value else "")
  {
    ProfileService.ProfileUpdate(p.fullName, p.bio.GetOr(""), p.avatarUrl.GetOr(""))
  }

  /** The store call a submit of `data` makes for the edited profile:
      `updateProfile(profile.id, data)`, with the form's values unchanged,
      unless the browser's check of the `type="url"` avatar field stops the
      submit. That check lets an empty value through (`isUrl` is the
      browser's URL grammar); the fields have no form-library rules. */
  function SaveCall(isUrl: string -> bool, p: ProfileService.Profile, data: ProfileService.ProfileUpdate): (call: Option<ProfileService.ProfileCall>)
    ensures call.None? <==> data.avatarUrl != "" && !isUrl(data.avatarUrl)
    ensures call.Some? ==> call.value.UpdateProfile? && call.value.id == p.id && call.value.updates == data
  {
    if data.avatarUrl == "" || isUrl(data.avatarUrl) then Some(ProfileService.UpdateProfile(p.id, data)) else None
  }

  /** Saving the form untouched updates the edited row with the stored full
      name, bio and avatar URL, except that an absent bio or avatar URL is
      written back as the empty string. It goes through unless the stored
      avatar URL is malformed. */
  lemma SavingDefaultsWritesBack(isUrl: string -> bool, p: ProfileService.Profile)
    ensures SaveCall(isUrl, p, DefaultValues(p)).Some? <==>
              !Truthy(p.avatarUrl) || isUrl(p.avatarUrl.value)
    ensures SaveCall(isUrl, p, DefaultValues(p)).Some? ==>
              var call := SaveCall(isUrl, p, DefaultValues(p)).value;
              && call.id == p.id
              && call.updates.fullName == p.fullName
              && (p.bio.Some? ==> call.updates.bio == p.bio.value)
              && (p.bio.None? ==> call.updates.bio == "")
              && (p.avatarUrl.Some? ==> call.updates.avatarUrl == p.avatarUrl.value)
              && (p.avatarUrl.None? ==> call.updates.avatarUrl == "")
  {
  }

  class ProfileEditor {
    const profile: ProfileService.Profile
    var isSubmitting: bool

    constructor (profile: ProfileService.Profile)
      ensures this.profile == profile && !isSubmitting
    {
      this.profile := profile;
      isSubmitting := false;
    }

    /** The form's submit, with how the awaited `updateProfile` settled. A
        malformed avatar URL stops it before any call. Otherwise the update
        targets the edited profile's id with the form's values; on success
        `onUpdate(updated)` and then `onClose` run; on failure neither does. */
    method Submit(isUrl: string -> bool, data: ProfileService.ProfileUpdate, outcome: Settled<Option<ProfileService.Profile>>)
      returns (call: Option<ProfileService.ProfileCall>, callbacks: seq<Callback>, toast: Option<Toast>)
      modifies this
      ensures call == SaveCall(isUrl, profile, data)
      ensures call.None? ==> callbacks == [] && toast == None && isSubmitting == old(isSubmitting)
      ensures call.Some? && outcome.Returned? ==>
                callbacks == [OnUpdate(outcome.value), OnClose] && toast == Some(SuccessToast("Profile updated successfully"))
      ensures call.Some? && outcome.Threw? ==> callbacks == [] && toast == Some(ErrorToast("Failed to update profile"))
      ensures call.Some? ==> !isSubmitting
    {
      call, callbacks, toast := None, [], None;
      if data.avatarUrl != "" && !isUrl(data.avatarUrl) {
        return;
      }
      isSubmitting := true;
      call := Some(ProfileService.UpdateProfile(profile.id, data));
      if outcome.Returned? {
        callbacks := [OnUpdate(outcome.value)];
        toast := Some(SuccessToast("Profile updated successfully"));
        callbacks := callbacks + [OnClose];
      } else {
        toast := Some(ErrorToast("Failed to update profile"));
      }
      isSubmitting := false;
    }

    /** The cancel button and the close icon: `onClose` without an update. */
    method Cancel() returns (callbacks: seq<Callback>)
      ensures callbacks == [OnClose]
    {
      callbacks := [OnClose];
    }
  }
}
