# Echo, modelled in Dafny

Echo is a small social-posting web app. A React front end talks to a hosted
Postgres store and its auth provider through the store's client library. This
project models the app's client-side core and proves properties about it:

- the two global stores: the signed-in user and the dark-mode flag;
- the protected route, which keeps the auth store in step with the auth
  provider's session and redirects when there is none;
- the post card's like button, the post form, and the image upload button;
- the feed list and the home page's refresh counter;
- the profile page, the profile editor, and the create-profile form;
- the auth page and the auth, profile, news and hashtag services;
- both trending panels: the single-file one that fetches for itself, and the
  hook-based one built on `useHashtags` and `useNews`.

Every `await` is one step of the model. The awaited call's outcome is a
parameter of that step:

- `Reply` is what the store client resolves with (`{ data, error }`), or the
  value it rejects with.
- `Settled` is how an app `async` function settles: it returns or it throws.
- Service functions return a `Traced` value: the remote calls they issued, in
  order, and how they settled.

A component whose state hooks the source updates is a `class`. Its fields are
that state. Its methods are the handlers, effects and effect continuations.
Interval-driven components also have a pure `Step` function over an explicit
state. Each method is proved to follow that function, and lemmas about `Events.Run`
(a fold of `Step` over a sequence of events) state what holds after any
sequence of events.

Behaviour of the code that looks unintended is modelled as written:

- The like button compares each like row's own id with the user id.
- The feed list ignores the `userId` prop, so a profile page shows every post.
- A response that arrives after unmount still updates state.
- A profile-page route change does not show the loading view, and a lookup that throws leaves the previous profile on screen.

## Model

| member | source | states |
|---|---|---|
| Outcomes.ThrowOnError | src/lib/services/profile.ts:47-48 | A store reply throws exactly when it was rejected or carries an error, throws that error, and otherwise returns the reply's data |
| Store.AuthStore.constructor | src/lib/store.ts:15-16 | The auth store starts with no user |
| Store.AuthStore.SetUser | src/lib/store.ts:17 | `setUser` overwrites the slot with the given value, with no validation |
| Store.ThemeStore.constructor | src/lib/store.ts:22-23 | The theme starts light |
| Store.ThemeStore.ToggleTheme | src/lib/store.ts:24 | `toggleTheme` negates the flag |
| Store.ToggleTwiceRestores | src/lib/store.ts:20-25 | Two toggles restore the theme and leave the auth store alone |
| Store.SetUserKeepsTheme | src/lib/store.ts:15-24 | Setting the user leaves the theme unchanged |
| ProtectedRoute.UserOf | src/components/ProtectedRoute.tsx:12 | `session?.user ?? null` is present exactly when the session is, and is the session's user |
| ProtectedRoute.Render | src/components/ProtectedRoute.tsx:27-31 | The route redirects to `/auth` exactly when there is no user, and renders the nested routes exactly when there is one |
| ProtectedRoute.ProtectedRoute.constructor | src/components/ProtectedRoute.tsx:6-8 | The component reads the shared auth store and is not subscribed before its effect runs |
| ProtectedRoute.ProtectedRoute.Mount | src/components/ProtectedRoute.tsx:10-22 | The mount effect registers the auth-state listener |
| ProtectedRoute.ProtectedRoute.SessionLoaded | src/components/ProtectedRoute.tsx:11-13 | The initial session's user, or none, is written to the store; a rejected session request changes nothing |
| ProtectedRoute.ProtectedRoute.AuthStateChanged | src/components/ProtectedRoute.tsx:17-22 | While subscribed, every event overwrites the store with the session's user and navigates to `/auth` exactly when the session is absent; after unsubscribing nothing happens |
| ProtectedRoute.ProtectedRoute.Unmount | src/components/ProtectedRoute.tsx:24 | The cleanup unsubscribes the listener |
| ProtectedRoute.EventViewAgreesWithNavigation | src/components/ProtectedRoute.tsx:17-31 | After an event the rendered view redirects exactly when the event navigated |
| ProtectedRoute.EventAfterUnmountIsIgnored | src/components/ProtectedRoute.tsx:17-24 | An event after unmount leaves the store unchanged and navigates nowhere |
| Tweet.InitiallyLiked | src/pages/Home/Tweet.tsx:27-29 | The initial liked flag holds exactly when a user is signed in and some like row's id equals the user's id |
| Tweet.AfterLike | src/pages/Home/Tweet.tsx:32-52 | A click leaves the state alone exactly when there is no user or the request rejected; otherwise it flips the flag and moves the count by one in the flag's new direction |
| Tweet.InitialStateFacts | src/pages/Home/Tweet.tsx:27-30 | The initial count is the number of likes; the flag is as above and false without a user; the like invariant holds |
| Tweet.NoUserNoChange | src/pages/Home/Tweet.tsx:33 | Without a user a click changes nothing |
| Tweet.RejectedNoChange | src/pages/Home/Tweet.tsx:35-51 | A rejected request leaves flag and count as they were |
| Tweet.CompletedToggles | src/pages/Home/Tweet.tsx:36-48 | A resolved request flips the flag and moves the count by exactly one, in the direction of the flag; a returned error makes no difference |
| Tweet.AfterLikeKeepsInvariant | src/pages/Home/Tweet.tsx:30-48 | Every click, whatever its outcome, keeps the count non-negative and at least one while liked |
| Tweet.TwoCompletedLikesRestore | src/pages/Home/Tweet.tsx:36-48 | Two resolved clicks by a user restore flag and count |
| Tweet.TweetCard.constructor | src/pages/Home/Tweet.tsx:25-30 | A card starts in the initial state computed from the post and the current user |
| Tweet.TweetCard.HandleLike | src/pages/Home/Tweet.tsx:32-52 | The card moves to the state `AfterLike` gives and keeps the invariant; it deletes the like when liked and inserts it otherwise; it issues nothing without a user; a rejection shows "Failed to like echo" |
| Tweet.LikeThenUnlike | src/pages/Home/Tweet.tsx:32-52 | Two completed clicks on a card bring it back to its starting state |
| TweetForm.NewTweetRow | src/pages/Home/TweetForm.tsx:27-31 | The inserted row carries the user's id and the content unchanged; its media list is present exactly when the media URL is truthy, and is then that one URL |
| TweetForm.SubmitDisabled | src/pages/Home/TweetForm.tsx:53-87 | The button is enabled exactly when no submission is running and the content passes the form's rules: the button and the rules agree |
| TweetForm.PassesRules | src/pages/Home/TweetForm.tsx:51-53 | Every post that passes `required` and `maxLength: 280` is inserted with 1 to 280 code units |
| TweetForm.MediaUrlWrapped | src/pages/Home/TweetForm.tsx:30 | A non-empty media URL is sent as a one-element list; no URL, and the empty URL, which is falsy, are sent as null |
| TweetForm.TweetForm.constructor | src/pages/Home/TweetForm.tsx:15-18 | The form starts empty, idle and without media |
| TweetForm.TweetForm.Submit | src/pages/Home/TweetForm.tsx:20-44 | Content failing the rules, or no user, inserts nothing. Otherwise the row is inserted. Success resets content and media, notifies the page once and shows "Echo posted!". Failure keeps both and shows "Failed to post echo". The busy flag ends cleared |
| TweetForm.TweetForm.SelectEmoji | src/pages/Home/TweetForm.tsx:46-48 | An emoji is appended to the content with no length check |
| TweetForm.TweetForm.UploadComplete | src/pages/Home/TweetForm.tsx:78 | A completed upload sets the media URL and nothing else |
| TweetForm.TweetForm.RemovePreview | src/pages/Home/TweetForm.tsx:68 | The preview's remove button clears the media URL and nothing else |
| TweetForm.EmojiCanOverflow | src/pages/Home/TweetForm.tsx:46-53 | An emoji appended to content at the limit disables the button and fails the rules |
| MediaUpload.Validate | src/components/MediaUpload/index.tsx:19-29 | A file is refused for its type exactly when it is not JPEG, PNG or GIF, and for its size exactly when its type is allowed and it exceeds 5 MiB; otherwise it is accepted |
| MediaUpload.RefusalMessage | src/components/MediaUpload/index.tsx:20-28 | A refused file gets a non-empty message, the type message or the size message by the refusal; an accepted file gets none |
| MediaUpload.LimitIsInclusive | src/components/MediaUpload/index.tsx:26 | Exactly 5 MiB passes; one byte more is too large |
| MediaUpload.TypeCheckedFirst | src/components/MediaUpload/index.tsx:18-29 | An oversized file of the wrong type reports the type error |
| MediaUpload.AllowedTypes | src/components/MediaUpload/index.tsx:19-20 | Within the size limit, exactly the three image types are accepted |
| MediaUpload.MediaUpload.constructor | src/components/MediaUpload/index.tsx:11 | The button starts idle, with no file selected |
| MediaUpload.MediaUpload.HandleUpload | src/components/MediaUpload/index.tsx:14-43 | No file does nothing. A refused file shows its message and is not uploaded. An accepted file is uploaded. On success the URL reaches the callback and the selected file is cleared. On failure "Failed to upload image" is shown, the callback is not called and the file stays selected. The busy flag ends cleared |
| ProfileService.GetProfileById | src/lib/services/profile.ts:26-38 | One select by id; the not-found code gives null, any other error is thrown unchanged, otherwise the row's data is returned |
| ProfileService.GetCurrentProfile | src/lib/services/profile.ts:12-24 | The auth user is asked for first. Without one, "Not authenticated" is thrown before any select. Otherwise that user's row is selected and every error is thrown |
| ProfileService.CreateProfile | src/lib/services/profile.ts:40-49 | One insert of the given profile. It throws exactly on a rejected or erroneous reply, and throws that rejection or error. Otherwise it returns the data |
| ProfileService.UpdateProfileById | src/lib/services/profile.ts:51-61 | One update of the row with that id. It throws exactly on a rejected or erroneous reply, and throws that rejection or error. Otherwise it returns the data |
| ProfileService.LookupsDifferOnlyOnNotFound | src/lib/services/profile.ts:12-38 | For the signed-in user's own row the two lookups agree, except on not-found, which one returns as null and the other throws |
| ProfileService.ByIdThrowsIff | src/lib/services/profile.ts:33-37 | A lookup by id throws exactly on rejection or an error other than not-found, and returns null exactly on not-found or null data |
| AuthService.NewProfileRow | src/lib/services/auth.ts:26-30 | The profile row carries the new auth user's id, the username and the full name |
| AuthService.SignUp | src/lib/services/auth.ts:12-40 | The provider sign-up is always the first call; a returned result holds the created user |
| AuthService.Compensate | src/lib/services/auth.ts:35-38 | The catch block always throws after appending one sign-out: the insert error when the sign-out resolves (a returned sign-out error is ignored), the sign-out's rejection when it rejects |
| AuthService.SignIn | src/lib/services/auth.ts:42-50 | One sign-in call. It throws exactly on a rejected or erroneous reply, and throws that rejection or error. Otherwise it returns the user |
| AuthService.SignOut | src/lib/services/auth.ts:52-55 | One sign-out call. It throws exactly on a rejected or erroneous reply, and throws that rejection or error |
| AuthService.ProviderErrorStopsSignUp | src/lib/services/auth.ts:14-19 | A provider error, returned or rejected, is thrown as is, with no insert and no sign-out |
| AuthService.MissingUserStopsSignUp | src/lib/services/auth.ts:20 | A result without a user throws "Failed to create user" after the one provider call |
| AuthService.SignUpCompensation | src/lib/services/auth.ts:22-39 | Once the user exists, the row carries its id. Sign-out is issued exactly when the insert fails. Sign-up then throws the insert's error, or the sign-out's rejection if awaiting the sign-out rejects. Success returns the user after exactly two calls |
| AuthService.SignOutOnlyAfterInsert | src/lib/services/auth.ts:22-39 | Sign-up signs out only as the third call, right after a profile insert |
| AuthPage.RequestFor | src/pages/Auth/index.tsx:24-36 | Sign-in mode calls sign-in with email and password. Sign-up mode calls sign-up with the four fields, or makes no call when username or full name is empty |
| AuthPage.PassesRules | src/pages/Auth/index.tsx:55-90 | A form that passes the browser's email check and the `required` rules has a non-empty email that the browser's grammar accepts and a non-empty password |
| AuthPage.AuthPage.constructor | src/pages/Auth/index.tsx:17-18 | The page starts in sign-in mode, not loading |
| AuthPage.AuthPage.ToggleMode | src/pages/Auth/index.tsx:110 | The mode link flips the mode |
| AuthPage.AuthPage.Submit | src/pages/Auth/index.tsx:21-44 | A form failing its rules (the browser's `type="email"` check on a non-empty email, a required email and password, and on sign-up a username and full name) is not submitted. Otherwise the mode's request is made. Sign-in success navigates home. Sign-up success shows "Account created successfully!". Any failure shows its message. Loading ends cleared |
| AuthPage.ModeDecidesRequest | src/pages/Auth/index.tsx:24-36 | Sign-up mode never signs in; in sign-in mode the extra fields make no difference |
| AuthPage.RulesMakeFieldCheckRedundant | src/pages/Auth/index.tsx:61-90 | Behind the form's `required` rules every submit makes a service call: the handler's missing-fields check cannot fire |
| CreateProfileForm.NewProfile | src/components/CreateProfileForm.tsx:24-27 | The created profile has the user's id and the form's fields unchanged |
| CreateProfileForm.PassesRules | src/components/CreateProfileForm.tsx:40-86 | A profile created from a form that passed has a username, a full name, and an avatar URL that is absent, empty or well-formed |
| CreateProfileForm.CreateProfileForm.constructor | src/components/CreateProfileForm.tsx:15 | The form starts idle |
| CreateProfileForm.CreateProfileForm.Submit | src/components/CreateProfileForm.tsx:19-35 | A form failing its rules (the browser's `type="url"` check on a non-empty avatar URL, a required username and full name) is not submitted. Without a user nothing is created. Otherwise the profile is created. Success calls `onProfileCreated` and shows the success notice; failure does not call it and shows "Failed to create profile" |
| ProfileEditor.DefaultValues | src/components/ProfileEditor.tsx:15-21 | The initial values are the full name as stored and the bio and avatar URL, with absent ones as empty strings |
| ProfileEditor.SaveCall | src/components/ProfileEditor.tsx:23-78 | A submit is stopped exactly when the avatar URL is non-empty and malformed; otherwise it updates the edited profile's id with the form's values unchanged |
| ProfileEditor.SavingDefaultsWritesBack | src/components/ProfileEditor.tsx:15-35 | Saving the untouched form is refused exactly when the stored avatar URL fails the URL check. Otherwise it updates the same id with the stored full name, and with the bio and avatar URL as stored or as empty strings when absent |
| ProfileEditor.ProfileEditor.constructor | src/components/ProfileEditor.tsx:13-14 | The editor edits the given profile and starts idle |
| ProfileEditor.ProfileEditor.Submit | src/components/ProfileEditor.tsx:23-35 | A form failing its rules is not submitted and changes nothing. Otherwise the update sends the form's values for the edited profile's id. Success calls `onUpdate` with the result, then `onClose`, and shows the success notice. Failure calls neither and shows "Failed to update profile" |
| ProfileEditor.ProfileEditor.Cancel | src/components/ProfileEditor.tsx:84 | Cancel calls only `onClose` |
| TweetList.QueryFor | src/pages/Home/TweetList.tsx:25-33 | The feed selects from `tweets`, newest `created_at` first, with no author filter |
| TweetList.QueryIgnoresUserId | src/pages/Home/TweetList.tsx:18 | The `userId` prop makes no difference to the query |
| TweetList.AfterReceive | src/pages/Home/TweetList.tsx:35-41 | A successful answer replaces the list with its rows (or `[]` for null); a failed one keeps it; loading stops either way |
| TweetList.ShowsLastSuccess | src/pages/Home/TweetList.tsx:22-45 | After any events the list shows exactly the rows of the last successful answer, or what it showed before |
| TweetList.LoadingNeverReturns | src/pages/Home/TweetList.tsx:20-41 | Once loading has stopped it never starts again |
| TweetList.TweetList.constructor | src/pages/Home/TweetList.tsx:18-20 | The list starts empty and loading |
| TweetList.TweetList.Mount | src/pages/Home/TweetList.tsx:22-44 | The first effect run issues the feed query |
| TweetList.TweetList.Rerender | src/pages/Home/TweetList.tsx:45 | A re-render refetches exactly when `refresh` changed |
| TweetList.TweetList.Receive | src/pages/Home/TweetList.tsx:23-41 | An answer updates the list as `AfterReceive` says, and is logged exactly when it failed |
| TweetList.Home.constructor | src/pages/Home/index.tsx:6 | The refresh key starts at 0 |
| TweetList.Home.HandleTweetCreated | src/pages/Home/index.tsx:8-10 | Each new post increments the refresh key |
| TweetList.NewPostRefetches | src/pages/Home/index.tsx:8-15 | A new post increments the home counter; the list re-rendered with it has the new `refresh` and issues the feed query again |
| ProfilePage.ResolveProfileId | src/pages/Profile/index.tsx:19-22 | The route id if it is non-empty, else the user's id if non-empty, else nothing to look up |
| ProfilePage.Render | src/pages/Profile/index.tsx:40-63 | The views, in order: loading first; then the create form for no profile, no route id and a user; then not-found for no profile; then the profile, with an edit button exactly for its owner |
| ProfilePage.AfterFetch | src/pages/Profile/index.tsx:17-32 | A fetch stops loading and touches only the profile: a returned lookup of a resolved id replaces it, a missing id or a thrown lookup keeps it |
| ProfilePage.ProfileFeedIsGlobal | src/pages/Profile/index.tsx:93 | The profile page's feed is the same query as the home feed, with no author filter |
| ProfilePage.NotFoundLeadsToCreateOrNotFound | src/pages/Profile/index.tsx:48-61 | A missing profile shows the create form on one's own page and not-found on someone else's |
| ProfilePage.LoadingStopsForGood | src/pages/Profile/index.tsx:17-46 | After the first fetch, whatever its outcome and whatever events follow, the loading view is never rendered again |
| ProfilePage.StaleProfileAfterFailedRouteChange | src/pages/Profile/index.tsx:17-38 | A route change whose lookup throws keeps the previous profile on screen under the new id, without a loading view, with the edit button if it is the viewer's own |
| ProfilePage.ProfilePage.constructor | src/pages/Profile/index.tsx:11-15 | The page starts loading on its route id, with no profile and not editing |
| ProfilePage.ProfilePage.FetchProfile | src/pages/Profile/index.tsx:17-32 | The id looked up is the resolved one. A returned result, null included, replaces the profile; a thrown one or a missing id keeps it, is logged and shows "Failed to load profile". Loading stops either way |
| ProfilePage.ProfilePage.UserChanged | src/pages/Profile/index.tsx:34-38 | The effect fetches exactly when a user is present; otherwise nothing changes |
| ProfilePage.ProfilePage.RouteChanged | src/pages/Profile/index.tsx:11-38 | The route id becomes the new one; the effect fetches exactly when the id changed and a user is present, looking up the new id, without setting loading again |
| ProfilePage.ProfilePage.OpenEditor | src/pages/Profile/index.tsx:84 | The edit button opens the editor and changes nothing else |
| ProfilePage.ProfilePage.EditorUpdated | src/pages/Profile/index.tsx:100 | The editor's update replaces the profile |
| ProfilePage.ProfilePage.EditorClosed | src/pages/Profile/index.tsx:99 | The editor's close closes it and changes nothing else |
| NewsService.Get | src/lib/services/news.ts:22 | A property read gives the value of the key's last member, or nothing when no member has that key |
| NewsService.DuplicateKeyLastWins | src/lib/services/news.ts:20-22 | With a key repeated in the body, the later member's value is read |
| NewsService.ParseArticles | src/lib/services/news.ts:22 | The array parse succeeds exactly when every element is a valid article, and then keeps every element, in order |
| NewsService.ValidArticleFields | src/lib/services/news.ts:4-12 | An article the schema accepts is an object whose item holds exactly the strings under its title, description, url, publishedAt and source name keys, with a URL that passes the URL check |
| NewsService.GetTopNews | src/lib/services/news.ts:15-27 | All or nothing: the headlines come back in the provider's order and with the same count exactly when the body is JSON whose `articles` is an array of valid articles; otherwise the result is `[]` |
| NewsService.LogsFailure | src/lib/services/news.ts:23-25 | The failure is logged exactly when the payload is not deliverable |
| NewsService.OneInvalidEmptiesAll | src/lib/services/news.ts:22-25 | One invalid article empties the whole result |
| NewsService.TransportFailureGivesEmpty | src/lib/services/news.ts:16-26 | A failed request or a body that is not JSON gives `[]` and is logged |
| NewsService.MissingSourceNameRejected | src/lib/services/news.ts:9-11 | An article whose source has no name is invalid, and a payload holding it gives `[]` |
| HashtagService.GetTrending | src/lib/services/hashtag.ts:5-18 | It throws exactly when the select rejects. A returned error gives `[]`, null data gives `[]`, and otherwise the rows are returned as ordered |
| HashtagService.ReturnedErrorNeverThrows | src/lib/services/hashtag.ts:12-17 | Every resolved reply gives a list, and a non-empty list only comes from an error-free reply's data |
| Interval.NoFetchAfterUnmount | src/components/TrendingTopics.tsx:46-51 | Once the interval is cleared no event but a new mount fetches |
| Interval.EveryTickFetches | src/components/TrendingTopics.tsx:43-49 | Mounting then ticking n times fetches n + 1 times |
| Interval.TicksWhileRegistered | src/components/TrendingTopics.tsx:46-49 | Each tick while the interval is registered fetches |
| TrendingTopics.ListsFollowTheirOwnAnswers | src/components/TrendingTopics.tsx:26-44 | After any events the hashtags are the last answer that had data, and the news is the last news answer: each list depends only on its own fetch |
| TrendingTopics.AfterTrending | src/components/TrendingTopics.tsx:27-35 | A resolved answer with data replaces the hashtags, whatever error it carries; a rejected answer or one without data keeps them; the list only ever changes to an answer's data |
| TrendingTopics.FailuresAreIsolated | src/components/TrendingTopics.tsx:26-44 | A hashtag answer without data keeps the hashtags while the news updates. A failed news request empties the news while the hashtags update |
| TrendingTopics.TrendingTopics.constructor | src/components/TrendingTopics.tsx:22-23 | Both lists start empty, with no interval |
| TrendingTopics.TrendingTopics.Mount | src/components/TrendingTopics.tsx:43-49 | Mounting issues the trending query and the top-headlines request and registers the 300000 ms interval |
| TrendingTopics.TrendingTopics.Tick | src/components/TrendingTopics.tsx:46-49 | A tick fetches again exactly while the interval is registered, issuing the trending query and the top-headlines request |
| TrendingTopics.TrendingTopics.TrendingArrived | src/components/TrendingTopics.tsx:27-35 | A hashtag answer with data replaces the hashtags; otherwise they are kept; the news is untouched |
| TrendingTopics.TrendingTopics.NewsArrived | src/components/TrendingTopics.tsx:38-41 | The news list is replaced by the news client's result; the hashtags are untouched |
| TrendingTopics.TrendingTopics.Unmount | src/components/TrendingTopics.tsx:51 | The cleanup clears the interval |
| UseHashtags.ShowsLastReturned | src/hooks/useHashtags.ts:9-12 | After any events the list is exactly the value of the last call that returned |
| UseHashtags.StoreErrorEmpties | src/hooks/useHashtags.ts:10-11 | A refresh whose select returns an error empties the list |
| UseHashtags.PanelsDisagreeOnStoreError | src/components/TrendingTopics.tsx:33-35 | On a store error the single-file panel keeps its non-empty hashtags while the hook clears them |
| UseHashtags.UseHashtags.constructor | src/hooks/useHashtags.ts:6 | The list starts empty, with no interval |
| UseHashtags.UseHashtags.Mount | src/hooks/useHashtags.ts:14-15 | Mounting issues the trending query and registers the 300000 ms interval |
| UseHashtags.UseHashtags.Tick | src/hooks/useHashtags.ts:15 | A tick fetches again exactly while the interval is registered, issuing the trending query |
| UseHashtags.UseHashtags.Receive | src/hooks/useHashtags.ts:10-11 | A returned list replaces the hashtags wholesale; a thrown call changes nothing |
| UseHashtags.UseHashtags.Unmount | src/hooks/useHashtags.ts:17 | The cleanup clears the interval |
| UseNews.ShowsLastResult | src/hooks/useNews.ts:9-12 | After any events the list is exactly the result of the last call |
| UseNews.FailedRefreshEmpties | src/hooks/useNews.ts:10-11 | A refresh whose request fails empties the list |
| UseNews.UseNews.constructor | src/hooks/useNews.ts:6 | The list starts empty, with no interval |
| UseNews.UseNews.Mount | src/hooks/useNews.ts:14-15 | Mounting issues the top-headlines request and registers the 300000 ms interval |
| UseNews.UseNews.Tick | src/hooks/useNews.ts:15 | A tick fetches again exactly while the interval is registered, issuing the top-headlines request |
| UseNews.UseNews.Receive | src/hooks/useNews.ts:10-11 | The result replaces the list wholesale |
| UseNews.UseNews.Unmount | src/hooks/useNews.ts:17 | The cleanup clears the interval |

## Left out

- Rendering: markup, styling, icons, relative dates, and the placeholder avatar.
- `TweetForm.TweetForm.Submit`, `MediaUpload.MediaUpload.HandleUpload`, `AuthPage.AuthPage.Submit`, `CreateProfileForm.CreateProfileForm.Submit` and `ProfileEditor.ProfileEditor.Submit` each run as one step. So the busy flag's value while the call is in flight (which disables the button) is not observable in the model. Only its final cleared value is stated.
- Interleavings of concurrent promises are not modelled. Each awaited call's outcome arrives in a single step, so two clicks overlapping one in-flight like request (and its stale `isLiked` closure) are not modelled.
- The upload itself: `src/lib/services/media.ts` is not part of this model. Its result is a parameter.
- The news API key and the network request are not modelled. zod's URL grammar is a parameter (`isUrl`).
- Theme persistence to browser storage and the DOM class toggling are not modelled, because they are platform I/O.
- `Layout` imports `./TrendingTopics`, which can resolve to the single file or to the directory. Both panels are modelled, and which one is bound is not decided.
- The emoji picker, the sidebar, the app's routes and the layout are not modelled; they hold no state that the modelled core depends on.
- Each post card's state lives on across feed refetches, because the cards are keyed by post id. The model treats cards and the list separately and does not model this reconciliation.
- Log output (`console.error`) appears only as a flag saying whether a failure is logged, and only where a member states it.
