/** The profile page: which id it looks up, how the lookup's outcome updates
    `profile` and `loading`, which view it renders, and the feed it embeds. */
module ProfilePage {
  import opened Outcomes
  import Events
  import ProfileService
  import TweetList

  const LoadFailedMessage := "Failed to load profile"

  /** What the page renders. */
  datatype View =
    | LoadingView
    | CreateProfileView
    | NotFoundView
    | ProfileView(profile: ProfileService.Profile, showEdit: bool)

  /** `id || user?.id`, then `if (!profileId) throw`: the route id when it is
      non-empty, otherwise the user's id when that is non-empty, otherwise
      nothing to look up. */
  function ResolveProfileId(routeId: Option<string>, user: Option<User>): (r: Option<string>)
    ensures Truthy(routeId) ==> r == routeId
    ensures !Truthy(routeId) && user.Some? && user.value.id != "" ==> r == Some(user.value.id)
    ensures r.None? <==> !Truthy(routeId) && (user.None? || user.value.id == "")
    ensures r.Some? ==> r.value != ""
  {
    if Truthy(routeId) then routeId
    else if user.Some? && user.value.id != "" then Some(user.value.id)
    else None
  }

  /** `user?.id === profile.id`. */
  predicate IsOwnProfile(user: Option<User>, p: ProfileService.Profile) {
    user.Some? && user.value.id == p.id
  }

  /** The render precedence: loading; then the create form when there is no
      profile, no route id and a user; then not-found; then the profile, with
      the edit button for its owner. */
  function Render(loading: bool, profile: Option<ProfileService.Profile>, routeId: Option<string>, user: Option<User>): (v: View)
    ensures loading <==> v == LoadingView
    ensures v == CreateProfileView <==> !loading && profile.None? && !Truthy(routeId) && user.Some?
    ensures v == NotFoundView <==> !loading && profile.None? && (Truthy(routeId) || user.None?)
    ensures v.ProfileView? <==> !loading && profile.Some?
    ensures v.ProfileView? ==> v.profile == profile.value && (v.showEdit <==> user.Some? && user.value.id == profile.value.id)
  {
    if loading then LoadingView
    else if profile.None? && !Truthy(routeId) && user.Some? then CreateProfileView
    else if profile.None? then NotFoundView
    else ProfileView(profile.value, IsOwnProfile(user, profile.value))
  }

  /** `<TweetList userId={profile.id} />`. */
  function FeedProps(p: ProfileService.Profile): TweetList.Props {
    TweetList.Props(None, Some(p.id))
  }

  /** The profile page's feed is the home feed: every post, not the
      profile's own. */
  lemma ProfileFeedIsGlobal(p: ProfileService.Profile, key: int)
    ensures TweetList.QueryFor(FeedProps(p)) == TweetList.QueryFor(TweetList.Props(Some(key), None))
    ensures TweetList.QueryFor(FeedProps(p)).authorFilter == None
  {
  }

  /** A not-found lookup of one's own profile (no route id) leads to the
      create form; a not-found lookup of someone else's leads to not-found. */
  lemma NotFoundLeadsToCreateOrNotFound(u: User, routeId: Option<string>)
    ensures !Truthy(routeId) ==> Render(false, None, routeId, Some(u)) == CreateProfileView
    ensures Truthy(routeId) ==> Render(false, None, routeId, Some(u)) == NotFoundView
  {
  }

  /** The page's state: the route id it shows and its three state hooks. */
  datatype PageState = PageState(routeId: Option<string>, profile: Option<ProfileService.Profile>, isEditing: bool, loading: bool)

  /** Something that happens to a mounted page. The lookup outcome is how the
      awaited `getProfileById` settled (unused when there is nothing to look
      up). */
  datatype Event =
    | ProfileFetched(user: Option<User>, lookup: Settled<Option<ProfileService.Profile>>)
    | UserSwitched(user: Option<User>, lookup: Settled<Option<ProfileService.Profile>>)
    | RouteSwitched(id: Option<string>, user: Option<User>, lookup: Settled<Option<ProfileService.Profile>>)
    | EditorShown
    | ProfileReplaced(updated: Option<ProfileService.Profile>)
    | EditorHidden

  /** `fetchProfile`: a returned lookup of a resolved id replaces the profile,
      `null` included; a missing id or a thrown lookup keeps it. Loading
      stops either way. */
  function AfterFetch(s: PageState, user: Option<User>, lookup: Settled<Option<ProfileService.Profile>>): (t: PageState)
    ensures !t.loading && t.routeId == s.routeId && t.isEditing == s.isEditing
    ensures ResolveProfileId(s.routeId, user).Some? && lookup.Returned? ==> t.profile == lookup.value
    ensures ResolveProfileId(s.routeId, user).None? || lookup.Threw? ==> t.profile == s.profile
  {
    s.(profile := if ResolveProfileId(s.routeId, user).Some? && lookup.Returned? then lookup.value else s.profile,
       loading := false)
  }

  /** The effect on `[id, user]` runs `fetchProfile` when a user is present.
      A route change keeps the page mounted and re-runs it, without setting
      `loading` again. */
  function Step(s: PageState, e: Event): PageState {
    match e
    case ProfileFetched(user, lookup) => AfterFetch(s, user, lookup)
    case UserSwitched(user, lookup) => if user.Some? then AfterFetch(s, user, lookup) else s
    case RouteSwitched(id, user, lookup) =>
      var t := s.(routeId := id);
      if id != s.routeId && user.Some? then AfterFetch(t, user, lookup) else t
    case EditorShown => s.(isEditing := true)
    case ProfileReplaced(updated) => s.(profile := updated)
    case EditorHidden => s.(isEditing := false)
  }

  /** After the first fetch, whatever its outcome and whatever follows, the
      page never shows the loading view again. */
  lemma LoadingStopsForGood(s: PageState, user: Option<User>, lookup: Settled<Option<ProfileService.Profile>>,
                            events: seq<Event>, viewer: Option<User>)
    ensures var t := Events.Run(Step, Step(s, ProfileFetched(user, lookup)), events);
            Render(t.loading, t.profile, t.routeId, viewer) != LoadingView
  {
    Events.Preserves(Step, (t: PageState) => !t.loading, Step(s, ProfileFetched(user, lookup)), events);
  }

  /** A route change whose lookup throws leaves the previous profile on
      screen under the new route id, with no loading view in between, and
      with the edit button if it was the viewer's own. */
  lemma StaleProfileAfterFailedRouteChange(s: PageState, id: string, u: User, e: Error)
    requires !s.loading && s.profile.Some? && s.routeId != Some(id)
    ensures var t := Step(s, RouteSwitched(Some(id), Some(u), Threw(e)));
            && t.routeId == Some(id)
            && Render(t.loading, t.profile, t.routeId, Some(u)) == ProfileView(s.profile.value, s.profile.value.id == u.id)
  {
  }

  class ProfilePage {
    /** The `:id` route parameter. */
    var routeId: Option<string>
    var profile: Option<ProfileService.Profile>
    var isEditing: bool
    var loading: bool

    function State(): PageState
      reads this
    {
      PageState(routeId, profile, isEditing, loading)
    }

    constructor (routeId: Option<string>)
      ensures State() == PageState(routeId, None, false, true)
    {
      this.routeId := routeId;
      profile, isEditing, loading := None, false, true;
    }

    /** `fetchProfile`, with how the awaited `getProfileById` settled. With no
        id there is no lookup, and an error is logged and reported; a thrown
        lookup is logged and reported too. */
    method FetchProfile(user: Option<User>, lookup: Settled<Option<ProfileService.Profile>>)
      returns (lookedUp: Option<string>, logged: bool, toast: Option<Toast>)
      modifies this
      ensures State() == Step(old(State()), ProfileFetched(user, lookup))
      ensures lookedUp == ResolveProfileId(routeId, user)
      ensures logged <==> lookedUp.None? || lookup.Threw?
      ensures toast == if logged then Some(ErrorToast(LoadFailedMessage)) else None
      ensures !loading
    {
      lookedUp := ResolveProfileId(routeId, user);
      logged := lookedUp.None? || lookup.Threw?;
      toast := None;
      if logged {
        toast := Some(ErrorToast(LoadFailedMessage));
      } else {
        profile := lookup.value;
      }
      loading := false;
    }

    /** The effect re-run by a new `user`: fetch only when a user is present. */
    method UserChanged(user: Option<User>, lookup: Settled<Option<ProfileService.Profile>>)
      returns (fetched: bool, lookedUp: Option<string>)
      modifies this
      ensures State() == Step(old(State()), UserSwitched(user, lookup))
      ensures fetched <==> user.Some?
      ensures lookedUp == if fetched then ResolveProfileId(routeId, user) else None
    {
      fetched, lookedUp := false, None;
      if user.Some? {
        fetched := true;
        var logged, toast;
        lookedUp, logged, toast := FetchProfile(user, lookup);
      }
    }

    /** Navigation to another profile route while the page stays mounted: the
        effect re-runs when the id changed and a user is present. */
    method RouteChanged(id: Option<string>, user: Option<User>, lookup: Settled<Option<ProfileService.Profile>>)
      returns (fetched: bool, lookedUp: Option<string>)
      modifies this
      ensures State() == Step(old(State()), RouteSwitched(id, user, lookup))
      ensures routeId == id
      ensures fetched <==> id != old(routeId) && user.Some?
      ensures lookedUp == if fetched then ResolveProfileId(id, user) else None
    {
      fetched, lookedUp := id != routeId && user.Some?, None;
      routeId := id;
      if fetched {
        var logged, toast;
        lookedUp, logged, toast := FetchProfile(user, lookup);
      }
    }

    function View(user: Option<User>): View
      reads this
    {
      Render(loading, profile, routeId, user)
    }

    /** The edit button. */
    method OpenEditor()
      modifies this
      ensures State() == Step(old(State()), EditorShown)
    {
      isEditing := true;
    }

    /** The editor's `onUpdate`, which is `setProfile`. */
    method EditorUpdated(updated: Option<ProfileService.Profile>)
      modifies this
      ensures State() == Step(old(State()), ProfileReplaced(updated))
    {
      profile := updated;
    }

    /** The editor's `onClose`. */
    method EditorClosed()
      modifies this
      ensures State() == Step(old(State()), EditorHidden)
    {
      isEditing := false;
    }
  }
}
