# vidtube_frontend — a verified model of the client core

vidtube_frontend is the React/Redux web client of a video-sharing site: it
has videos, comments, likes, subscriptions and short text posts ("tweets").
This project models the parts of the client that decide state, written in
Dafny, and proves what those parts promise.

- **Redux slices.** The `user`, `videos`, `tweets`, `comments`, `likes`,
  `subscription` and `ui` slices are modelled. Each slice is a class whose
  fields are the slice state. Each reducer is a method; its `modifies`
  clause names exactly the fields the reducer writes. The user slice also
  has a pure reducer, `UserSlice.Reduce`. Each of its methods is proved equal
  to one step of that reducer, and the lemmas about runs of actions are
  stated on it.
- **Route guards and the route table.** These are pure functions of the
  session flags.
- **The axios response interceptor.** It is modelled as a function from a
  failed exchange to a refused result plus the effects the user sees:
  toasts and a redirect.
- **`formatDuration`.** It is modelled over natural numbers. A parser of its
  output is proved to be its inverse.
- **Page state machines.**
  - The watch page: like/dislike, local comments, and the subscription
    check.
  - The tweet page: the composer limits, posting, editing, and the owner
    check.
  - The upload page: the MIME gates, the progress steps, and the form rules.
  - The registration page: the multipart body, the 5 MiB gate, and the
    field rules, including the email regular expression.
  - The error boundary: catch, reset, and render.

Some JavaScript semantics are written out explicitly:

- Truthiness of optional strings (`Common.Truthy`).
- `String.prototype.trim` over the ECMAScript white-space set (`Text.Trim`).
- `.length` in UTF-16 code units (`Text.Utf16Length`).
- `Error.prototype.toString` (`ErrorBoundary.ErrorToString`).
- Redux Toolkit's rule that an awaited `dispatch(thunk)` without `.unwrap()`
  resolves even when the thunk is rejected.

Other behaviour depends on code that is not part of this model: thunks, the
API client, React rendering, the browser, and `react-hook-form`'s state.
That behaviour enters as parameters:

- the settled outcome of a request (`Common.Settlement`);
- the extracted payload of a fulfilled request;
- the session flags a guard reads;
- whether the document root has the `dark` class;
- the URL the browser makes for a file.

In a few places the code does less, or something other, than its names or
neighbours suggest. The model follows the code:

- A 401 response only shows "Unauthorized" and redirects to `/login`
  (src/api/axiosInstance.ts:29-33). The session is not cleared there.
- Both guard components wait on `loading` as well as `initialized`
  (src/routes/PrivateRoute.tsx:12-14, src/routes/PublicRoute.tsx:12-14).
- `loginUser.fulfilled` keeps any earlier error; only the pending case clears
  it (src/features/user/userSlice.ts:95-103).
- The watch page decides "already subscribed" from `ch.channel?._id`, not
  from the entry's own id (src/pages/video/VideoPage.tsx:169).
- `getWatchHistory.fulfilled` writes the user key `history`
  (src/features/user/userSlice.ts:165), while the `User` type declares
  `watchHistory` (src/types/global.d.ts:8).

## Model

| member | source | states |
|---|---|---|
| UserSlice.Slice.constructor | src/features/user/userSlice.ts:35-43 | no user, not loading, no error or message, not initialized, token refresh off, and the theme passed in, which `UserSlice.InitialTheme` computes as `getInitialTheme` does |
| UserSlice.Reduce | src/features/user/userSlice.ts:48-195 | one step of the slice reducer for each action; every `Slice` method is proved equal to one step, and the run lemmas (`InitializedStaysSet`, `RefreshRunKeepsSession`) are stated over it |
| UserSlice.Slice.Logout | src/features/user/userSlice.ts:49-53 | new state is one `Reduce` step of `logout` from the old state |
| UserSlice.LogoutClearsSession | src/features/user/userSlice.ts:49-53 | logout clears user, error and success message and leaves loading, theme, token flag and initialized as they were |
| UserSlice.Slice.ToggleTheme | src/features/user/userSlice.ts:54-58 | new state is one `Reduce` step of `toggleTheme` |
| UserSlice.Slice.SetTheme | src/features/user/userSlice.ts:59-66 | new state is one `Reduce` step of `setTheme(t)` |
| UserSlice.ThemeActions | src/features/user/userSlice.ts:54-66 | toggling always changes the theme and lands on "light" or "dark"; toggling twice restores a light or dark state and turns any other stored string into "light"; `setTheme(t)` changes only the theme, to `t` |
| UserSlice.InitialThemeSources | src/features/user/userSlice.ts:26-33 | a theme other than light or dark at start can only be the saved string; a saved "light" or "dark" wins over the preference; without a truthy saved value the theme is dark exactly when the preference says so |
| UserSlice.InitialTheme | src/features/user/userSlice.ts:26-33 | `getInitialTheme`: "light" without a window, a truthy saved string as it is, else the colour-scheme preference; its properties are stated by `UserSlice.InitialThemeSources` |
| UserSlice.Slice.ClearError | src/features/user/userSlice.ts:67-69 | new state is one `Reduce` step of `clearError` |
| UserSlice.Slice.MarkInitialized | src/features/user/userSlice.ts:70-72 | new state is one `Reduce` step of `markInitialized` |
| UserSlice.InitializedOnlyRises | src/features/user/userSlice.ts:70-129 | no action clears `initialized`; from false, it becomes true exactly on markInitialized and on fetchCurrentUser fulfilled or rejected |
| UserSlice.InitializedStaysSet | src/features/user/userSlice.ts:70-129 | once initialized, every sequence of actions keeps it initialized |
| UserSlice.Slice.RegisterPending | src/features/user/userSlice.ts:77-81 | one `Reduce` step: loading on, error and success message cleared |
| UserSlice.Slice.RegisterFulfilled | src/features/user/userSlice.ts:82-87 | one `Reduce` step: loading off, the registered user stored, "User registered successfully" |
| UserSlice.Slice.RegisterRejected | src/features/user/userSlice.ts:88-91 | one `Reduce` step: loading off, the payload becomes the error |
| UserSlice.PendingActions | src/features/user/userSlice.ts:77-173 | register pending clears error and message, login pending clears error, the other four pending cases only set loading |
| UserSlice.RejectedActions | src/features/user/userSlice.ts:88-182 | the five plain rejected cases set loading off and the error to the payload and change nothing else |
| UserSlice.Slice.LoginPending | src/features/user/userSlice.ts:95-98 | one `Reduce` step: loading on, error cleared |
| UserSlice.Slice.LoginFulfilled | src/features/user/userSlice.ts:99-103 | one `Reduce` step: loading off, the user from `payload.data.user` stored |
| UserSlice.LoginFulfilledKeepsError | src/features/user/userSlice.ts:99-103 | login fulfilled changes only loading and user; an earlier error stays |
| UserSlice.Slice.LoginRejected | src/features/user/userSlice.ts:104-107 | one `Reduce` step: loading off, payload as error |
| UserSlice.Slice.FetchCurrentUserPending | src/features/user/userSlice.ts:111-113 | one `Reduce` step: loading on only |
| UserSlice.Slice.FetchCurrentUserFulfilled | src/features/user/userSlice.ts:114-120 | one `Reduce` step: loading off, user stored, initialized |
| UserSlice.Slice.FetchCurrentUserRejected | src/features/user/userSlice.ts:121-129 | one `Reduce` step of the rejected case |
| UserSlice.FetchUserErrorMessage | src/features/user/userSlice.ts:125-128 | the error is never empty: the payload if truthy, else the thrown message if truthy, else "Failed to fetch user" |
| UserSlice.FetchCurrentUserRejectedOutcome | src/features/user/userSlice.ts:121-129 | rejection clears the user, ends loading, marks initialized and sets a non-empty error chosen by that precedence |
| UserSlice.Slice.UpdateAccountPending | src/features/user/userSlice.ts:133-135 | one `Reduce` step: loading on only |
| UserSlice.Slice.UpdateAccountFulfilled | src/features/user/userSlice.ts:136-140 | one `Reduce` step: the returned fields are spread over the current user, "Account updated successfully" |
| UserSlice.OverlayFields | src/features/user/userSlice.ts:138 | the spread keeps every old key, adds the new ones, new values win, untouched keys keep their values |
| UserSlice.Slice.UpdateAccountRejected | src/features/user/userSlice.ts:141-144 | one `Reduce` step: loading off, payload as error |
| UserSlice.Slice.UpdateAvatarPending | src/features/user/userSlice.ts:148-150 | one `Reduce` step: loading on only |
| UserSlice.Slice.UpdateAvatarFulfilled | src/features/user/userSlice.ts:151-155 | one `Reduce` step: the user's `avatar` key replaced, "Avatar updated successfully" |
| UserSlice.UpdateAvatarChangesOnlyAvatar | src/features/user/userSlice.ts:151-155 | for a logged-in user, only the `avatar` key changes, every other key keeps its value, and the error stays |
| UserSlice.Slice.UpdateAvatarRejected | src/features/user/userSlice.ts:156-159 | one `Reduce` step: loading off, payload as error |
| UserSlice.Slice.GetWatchHistoryFulfilled | src/features/user/userSlice.ts:162-167 | one `Reduce` step: the user gets the `history` key, loading untouched |
| UserSlice.Slice.LogoutUserPending | src/features/user/userSlice.ts:171-173 | one `Reduce` step: loading on only |
| UserSlice.Slice.LogoutUserFulfilled | src/features/user/userSlice.ts:174-178 | one `Reduce` step: loading off, no user, "Logged out successfully" |
| UserSlice.Slice.LogoutUserRejected | src/features/user/userSlice.ts:179-182 | one `Reduce` step: loading off, payload as error |
| UserSlice.Slice.RefreshAccessTokenPending | src/features/user/userSlice.ts:186-188 | one `Reduce` step: token flag on |
| UserSlice.Slice.RefreshAccessTokenFulfilled | src/features/user/userSlice.ts:189-191 | one `Reduce` step: token flag off |
| UserSlice.Slice.RefreshAccessTokenRejected | src/features/user/userSlice.ts:192-194 | one `Reduce` step: token flag off |
| UserSlice.RefreshTouchesOnlyTokenFlag | src/features/user/userSlice.ts:185-194 | the three refresh cases change only `tokenRefreshing` |
| UserSlice.RefreshRunKeepsSession | src/features/user/userSlice.ts:185-194 | any run of refresh actions leaves everything but the token flag as it was |
| VideoSlice.Slice.constructor | src/features/video/videoSlice.ts:31-37 | empty list, no selection, not loading, no error or message |
| VideoSlice.Slice.ClearVideoState | src/features/video/videoSlice.ts:43-47 | loading, error and message reset; lists untouched |
| VideoSlice.Slice.Pending | src/features/video/videoSlice.ts:52-54 | every pending case sets only loading |
| VideoSlice.Slice.Rejected | src/features/video/videoSlice.ts:60-63 | every rejected case ends loading and stores the payload as error |
| VideoSlice.Slice.PublishVideoFulfilled | src/features/video/videoSlice.ts:55-59 | `payload.data`, or the payload itself when that is falsy, goes in front, the rest of the list is unchanged, success message set |
| VideoSlice.Unwrap | src/features/video/videoSlice.ts:57-86 | `payload.data || payload`: the enveloped value when there is one, else the payload itself, as the publish, list and by-id fulfilled arms store it |
| VideoSlice.Slice.GetAllVideosFulfilled | src/features/video/videoSlice.ts:70-73 | the list becomes the unwrapped payload |
| VideoSlice.Slice.GetVideoByIdFulfilled | src/features/video/videoSlice.ts:84-87 | only the selected video is set, to the unwrapped payload |
| VideoSlice.Slice.DeleteVideoFulfilled | src/features/video/videoSlice.ts:98-104 | a video stays exactly when it was there and its id differs; survivors keep their order |
| VideoSlice.DeleteVideoCount | src/features/video/videoSlice.ts:100-102 | deleting removes exactly as many videos as carry the id |
| VideoSlice.Slice.UpdateVideoFulfilled | src/features/video/videoSlice.ts:115-121 | same length; each video with the payload's id becomes the payload, every other is unchanged |
| VideoSlice.UpdateVideoIdempotent | src/features/video/videoSlice.ts:117-119 | applying the same update twice equals applying it once |
| VideoSlice.Slice.TogglePublishStatusFulfilled | src/features/video/videoSlice.ts:132-140 | the list becomes the list with matching videos' `isPublished` flipped |
| VideoSlice.TogglePublished | src/features/video/videoSlice.ts:132-140 | the list with every video of the id flipped in `isPublished`; `TogglePublishedPointwise` and `TogglePublishedTwice` state what it changes |
| VideoSlice.FlipPublished | src/features/video/videoSlice.ts:136 | the id is kept, `isPublished` is negated, and every other field is unchanged |
| VideoSlice.TogglePublishedPointwise | src/features/video/videoSlice.ts:134-138 | exactly the videos with the id change, and only in `isPublished` |
| VideoSlice.TogglePublishedTwice | src/features/video/videoSlice.ts:134-138 | toggling the same id twice restores the list |
| TweetSlice.Slice.constructor | src/features/tweet/tweetSlice.ts:31-36 | both lists empty, not loading, no error |
| TweetSlice.Slice.Pending | src/features/tweet/tweetSlice.ts:46-48 | the three list requests' pending cases set only loading |
| TweetSlice.Slice.Rejected | src/features/tweet/tweetSlice.ts:56-59 | those rejected cases end loading and store the payload as error |
| TweetSlice.Slice.GetUserTweetsFulfilled | src/features/tweet/tweetSlice.ts:49-55 | only `userTweets` is replaced, by `payload.tweets` |
| TweetSlice.Slice.GetAllTweetsFulfilled | src/features/tweet/tweetSlice.ts:67-73 | only `tweets` is replaced, by the payload |
| TweetSlice.Slice.CreateTweetFulfilled | src/features/tweet/tweetSlice.ts:84-87 | the new tweet goes in front |
| TweetSlice.Slice.UpdateTweetFulfilled | src/features/tweet/tweetSlice.ts:95-100 | the tweets with the payload's id are replaced by it; loading is not touched |
| TweetSlice.Slice.DeleteTweetFulfilled | src/features/tweet/tweetSlice.ts:107-110 | a tweet stays exactly when it was there and its id differs; order is kept; loading is not touched |
| TweetSlice.DeleteTweetAbsentAndTwice | src/features/tweet/tweetSlice.ts:107-110 | deleting an absent id changes nothing; deleting twice equals deleting once |
| TweetSlice.Slice.MutationRejected | src/features/tweet/tweetSlice.ts:101-103 | update or delete rejected sets only the error |
| CommentSlice.Slice.constructor | src/features/comment/commentSlice.ts:31-35 | empty list, not loading, no error |
| CommentSlice.Slice.ToggleCommentLikeFulfilled | src/features/comment/commentSlice.ts:45-53 | the list becomes `PatchLike` of the old list (a `find` then an in-place patch) |
| CommentSlice.PatchLike | src/features/comment/commentSlice.ts:45-53 | the list after the first comment with the id gets the like flag and count; `PatchLikeChangesOnlyFirstMatch`, `PatchLikeSetsFields` and `PatchLikeIdempotent` state it |
| CommentSlice.PatchLikeChangesOnlyFirstMatch | src/features/comment/commentSlice.ts:48-52 | only the first comment with the id changes, and only in its like flag and count; no match changes nothing |
| CommentSlice.PatchLikeSetsFields | src/features/comment/commentSlice.ts:50-51 | the first match gets the payload's flag and count |
| CommentSlice.PatchLikeIdempotent | src/features/comment/commentSlice.ts:45-53 | applying the same like result twice equals applying it once |
| CommentSlice.Slice.GetCommentsPending | src/features/comment/commentSlice.ts:56-59 | loading on, error cleared |
| CommentSlice.Slice.GetCommentsFulfilled | src/features/comment/commentSlice.ts:60-63 | loading off, list replaced by `payload.comments` |
| CommentSlice.Slice.GetCommentsRejected | src/features/comment/commentSlice.ts:64-67 | loading off, payload as error |
| CommentSlice.Slice.CreateCommentFulfilled | src/features/comment/commentSlice.ts:70-72 | the new comment goes in front |
| CommentSlice.Slice.UpdateCommentFulfilled | src/features/comment/commentSlice.ts:75-82 | the first comment with the payload's id is replaced, the others stay; no match changes nothing |
| CommentSlice.Slice.DeleteCommentFulfilled | src/features/comment/commentSlice.ts:85 | deleting changes nothing in the slice |
| KeyedLists.FindIndex | src/features/comment/commentSlice.ts:76-78 | `findIndex`: the first matching position, or -1 when none matches |
| KeyedLists.RemoveById | src/features/video/videoSlice.ts:100-102 | `filter(x => x._id !== id)`: the kept elements are exactly those with another id |
| KeyedLists.RemoveByIdIsSubsequence | src/features/tweet/tweetSlice.ts:109 | filtering keeps the survivors in their original order |
| KeyedLists.MapWhereId | src/features/video/videoSlice.ts:134-138 | `map` that rewrites exactly the elements with the id, length kept |
| KeyedLists.ReplaceByIdAffectsOnlyMatches | src/features/tweet/tweetSlice.ts:97-99 | replacement changes only matching positions; with no match the list is unchanged |
| LikeSlice.Slice.constructor | src/features/like/likeSlice.ts:19-27 | no liked videos, flags unknown, count 0, not loading, no error |
| LikeSlice.Slice.SetInitialLikeState | src/features/like/likeSlice.ts:33-36 | only `isLiked` and `likesCount` are set from the payload |
| LikeSlice.Slice.Pending | src/features/like/likeSlice.ts:42-44 | every pending case sets only loading |
| LikeSlice.Slice.Rejected | src/features/like/likeSlice.ts:50-53 | every rejected case ends loading, payload as error |
| LikeSlice.Slice.ToggleVideoLikeFulfilled | src/features/like/likeSlice.ts:45-49 | loading off, flag from `isLiked`, count from `totalLikes` |
| LikeSlice.Slice.ToggleCommentLikeFulfilled | src/features/like/likeSlice.ts:59-62 | loading off, `commentLiked` is the whole payload |
| LikeSlice.Slice.ToggleTweetLikeFulfilled | src/features/like/likeSlice.ts:72-75 | loading off, `tweetLiked` is the whole payload |
| LikeSlice.Slice.GetAllLikedVideosFulfilled | src/features/like/likeSlice.ts:85-88 | loading off, the list is the payload |
| SubscriptionSlice.Slice.constructor | src/features/subscription/susbcriptionSlice.ts:16-22 | empty lists, the flag `false`, not loading, no error |
| SubscriptionSlice.Slice.SetSubscriptionState | src/features/subscription/susbcriptionSlice.ts:28-30 | only the flag is set, to the boolean payload |
| SubscriptionSlice.Slice.Pending | src/features/subscription/susbcriptionSlice.ts:35-38 | every pending case sets loading and clears the error |
| SubscriptionSlice.Slice.Rejected | src/features/subscription/susbcriptionSlice.ts:43-46 | every rejected case ends loading, payload as error |
| SubscriptionSlice.Slice.ToggleSubscriptionFulfilled | src/features/subscription/susbcriptionSlice.ts:39-42 | loading off, the flag is the payload as received, which need not be a boolean |
| SubscriptionSlice.ListOrEmpty | src/features/subscription/susbcriptionSlice.ts:55 | a present list is kept, a missing one becomes empty |
| SubscriptionSlice.Slice.GetSubscribedChannelsFulfilled | src/features/subscription/susbcriptionSlice.ts:53-56 | loading off, list is the payload or empty |
| SubscriptionSlice.Slice.GetChannelSubscribersFulfilled | src/features/subscription/susbcriptionSlice.ts:67-70 | loading off, list is the payload or empty |
| UiSlice.Slice.constructor | src/features/ui/uiSlice.ts:7-9 | the sidebar starts open |
| UiSlice.Slice.ToggleSidebar | src/features/ui/uiSlice.ts:15-17 | the flag is negated |
| UiSlice.ToggleTwice | src/features/ui/uiSlice.ts:15-17 | toggling twice restores the flag |
| Routes.PrivateRoute | src/routes/PrivateRoute.tsx:7-17 | loader until initialized and while loading, then children if authenticated, else a replacing redirect to `/login` |
| Routes.PublicRoute | src/routes/PublicRoute.tsx:7-17 | loader until initialized and while loading, then a replacing redirect to `/` if authenticated, else children |
| Routes.GuardsWaitTogether | src/routes/PrivateRoute.tsx:12-14 | both guards show the loader in exactly the same states |
| Routes.GuardsComplementary | src/routes/PublicRoute.tsx:16 | once settled, exactly one of the two guards shows the children, and the other redirects |
| Routes.InlineGuard | src/routes/AppRoutes.tsx:21-33 | the route file's own guard: "Loading session..." until initialized, then children or a redirect to `/login` |
| Routes.InlineGuardIgnoresLoading | src/routes/AppRoutes.tsx:21-33 | the inline guard ignores `loading`; once settled it agrees with the exported guard |
| Routes.TrimTrailingSlashes | src/routes/AppRoutes.tsx:37-41 | the result is a prefix of the path, only slashes are dropped, and no trailing slash remains except on `/` itself |
| Routes.AppRoutesTable | src/routes/AppRoutes.tsx:39-63 | `/`, `/login`, `/register` (with or without a trailing slash) map to their pages; anything else redirects to `/`, which then maps to Home |
| Routes.AppRoutes | src/routes/AppRoutes.tsx:35-66 | the element `<Routes>` renders for a path; `AppRoutesTable` and `NoRouteIsGuarded` state the table |
| Routes.NoRouteIsGuarded | src/routes/AppRoutes.tsx:44-60 | the guarded routes are commented out: no path reaches a guard |
| AxiosInstance.ResponseMessage | src/api/axiosInstance.ts:36-38 | never empty; the body's message when truthy, else "Server error" for status 500 and above, else "something went wrong" |
| AxiosInstance.MessagePrecedence | src/api/axiosInstance.ts:36-38 | a non-empty body message always wins, an empty one counts as missing, and 401 falls to "something went wrong" |
| AxiosInstance.OnRejected | src/api/axiosInstance.ts:14-43 | every failure is re-thrown as a rejection |
| AxiosInstance.FailureEffects | src/api/axiosInstance.ts:17-42 | no response: one "Network error" toast; 401: "Unauthorized", a redirect to `/login`, then the message toast; other statuses: one toast, no redirect |
| AxiosInstance.Intercept | src/api/axiosInstance.ts:12-13 | answered exchanges pass through unchanged; failures are refused |
| Helpers.Pad2 | src/utls/helpers.ts:14-15 | the padded field is all digits, reads back as the number, and has two digits below 100 |
| Helpers.FormatDuration | src/utls/helpers.ts:7-8 | zero seconds prints "0:00" |
| Helpers.Decompose | src/utls/helpers.ts:10-12 | seconds and minutes fields are below 60 and the three fields add back up to the input |
| Helpers.ParseFormatDuration | src/utls/helpers.ts:7-23 | reading the printed duration back gives the number of seconds |
| Helpers.FormatDurationFields | src/utls/helpers.ts:17-22 | a positive duration prints two colon-separated fields below an hour, three from an hour up; minutes and seconds have two digits |
| Text.Trim | src/pages/tweet/TweetPage.tsx:77 | `trim` is the input with only leading and trailing white space removed: a contiguous slice whose outside is all white space, empty exactly for all-white-space input, otherwise starting and ending on non-white-space |
| Text.Utf16Length | src/pages/tweet/TweetPage.tsx:121 | `.length` lies between the number of code points and twice that, equals it for BMP text, and is zero only for "" |
| TweetPage.CharsRemaining | src/pages/tweet/TweetPage.tsx:120-121 | never above 280; exactly 280 for empty content; negative exactly when the content exceeds 280 code units |
| TweetPage.PostEnabledExactly | src/pages/tweet/TweetPage.tsx:282-286 | Post is enabled exactly when not posting, the content is not blank and it fits in 280 code units |
| TweetPage.PostDisabled | src/pages/tweet/TweetPage.tsx:282-286 | the Post button's `disabled` expression; `PostEnabledExactly` states when it is false |
| TweetPage.ShowCounterExactly | src/pages/tweet/TweetPage.tsx:273 | the numeric counter shows exactly when fewer than 20 code units remain |
| TweetPage.ShowCounter | src/pages/tweet/TweetPage.tsx:241-277 | the counter inside the ring, which needs non-empty content; `ShowCounterExactly` states when it shows |
| TweetPage.IsOwner | src/pages/tweet/TweetPage.tsx:347 | `tweet.owner._id === user?._id`; `OwnerControlsExactly` states when it holds |
| TweetPage.OwnerControlsExactly | src/pages/tweet/TweetPage.tsx:347 | the edit and delete controls show exactly when a viewer is present and owns the tweet; no viewer sees them on any tweet, and no two viewers on the same one |
| TweetPage.Composer.BeginPost | src/pages/tweet/TweetPage.tsx:76-79 | blank content dispatches nothing; otherwise posting starts and the content is sent |
| TweetPage.PostOutcomeIntended | src/pages/tweet/TweetPage.tsx:81-90 | success clears the box with a success toast; failure keeps the box and shows "Failed to post tweet" |
| TweetPage.RejectedPostReportsSuccess | src/pages/tweet/TweetPage.tsx:81-84 | as written, a rejected post still clears the box and reports success, unlike the intended outcome |
| TweetPage.PostOutcomeAsWritten | src/pages/tweet/TweetPage.tsx:81-90 | the box and toast after a post as the code is written: cleared with the success toast whatever the settlement; `RejectedPostReportsSuccess` shows the rejected case |
| TweetPage.Composer.FinishPost | src/pages/tweet/TweetPage.tsx:81-90 | posting ends, and the box and toast follow the intended outcome |
| TweetPage.Composer.OpenEditModal | src/pages/tweet/TweetPage.tsx:93-96 | the dialog opens on the tweet with its current text |
| TweetPage.DeleteToast | src/pages/tweet/TweetPage.tsx:98-105 | the unwrapped delete shows success exactly when it was fulfilled |
| TweetPage.Composer.HandleUpdateTweet | src/pages/tweet/TweetPage.tsx:107-118 | nothing is sent with no dialog open; otherwise the edit is sent for the tweet's id, and only success closes the dialog |
| VideoPage.MockComments | src/pages/video/VideoPage.tsx:75-101 | three placeholder comments with ids 1, 2, 3 |
| VideoPage.ReactionStep | src/pages/video/VideoPage.tsx:212-228 | each button flips its own flag, keeps the two exclusive, and clears the other when turning on |
| VideoPage.ClicksStayExclusive | src/pages/video/VideoPage.tsx:212-228 | no sequence of clicks turns both like and dislike on |
| VideoPage.Page.constructor | src/pages/video/VideoPage.tsx:131-135 | nothing liked, empty draft, the mock comments |
| VideoPage.Page.HandleLike | src/pages/video/VideoPage.tsx:212-219 | the flags become `Like` of the old flags, exclusivity kept |
| VideoPage.Page.HandleDislike | src/pages/video/VideoPage.tsx:221-228 | the flags become `Dislike` of the old flags, exclusivity kept |
| VideoPage.PrependNextId | src/pages/video/VideoPage.tsx:239 | prepending with id `length + 1` keeps the ids exactly 1..n |
| VideoPage.Page.HandleComment | src/pages/video/VideoPage.tsx:236-249 | a blank draft changes nothing; otherwise a fresh comment with the next id and no likes goes in front and the draft clears |
| VideoPage.SubscriptionCheck | src/pages/video/VideoPage.tsx:166-173 | a flag is dispatched exactly when the channel id is truthy and the list non-empty, and it is true exactly when some entry's `channel._id` matches |
| VideoPage.HandleSubscribe | src/pages/video/VideoPage.tsx:230-234 | with no owner id nothing is dispatched; otherwise the toggle for the owner, then a reload of the viewer's subscriptions |
| Upload.ProgressStep | src/pages/Upload.tsx:94-100 | at or above 100 the bar stays at 100, below it moves up by ten, and from a multiple of ten in [0, 100] it stays one |
| Upload.ProgressAfterTicks | src/pages/Upload.tsx:93-101 | after n firings from zero the bar shows min(10·n, 100) |
| Upload.Page.HandleVideoChange | src/pages/Upload.tsx:55-62 | a `video/` file fills the slot and sets the preview; anything else changes nothing |
| Upload.Page.HandleThumbnailChange | src/pages/Upload.tsx:64-71 | an `image/` file fills the slot and sets the preview; anything else changes nothing |
| Upload.Accepts | src/pages/Upload.tsx:55-71 | `file && file.type.startsWith(prefix)`, the gate of both change handlers |
| Upload.TitleValid | src/pages/Upload.tsx:293-301 | required, 3 to 100 UTF-16 code units |
| Upload.DescriptionValid | src/pages/Upload.tsx:330-338 | required, 10 to 5000 UTF-16 code units |
| Upload.Page.RemoveVideo | src/pages/Upload.tsx:73-77 | the slot and preview are cleared; the old preview is revoked only if it was set |
| Upload.Page.RemoveThumbnail | src/pages/Upload.tsx:79-83 | the slot and preview are cleared; the old preview is revoked only if it was set |
| Upload.Page.Submit | src/pages/Upload.tsx:85-116 | the upload starts from zero exactly when the form is valid and both files are chosen, and the timeouts it arms keep the two previews of that render; otherwise nothing changes |
| Upload.Page.Tick | src/pages/Upload.tsx:93-101 | one interval step, keeping the bar in [0, 100] on multiples of ten |
| Upload.Page.Complete | src/pages/Upload.tsx:103-107 | progress 100, not uploading, success |
| Upload.Page.ResetAfterSuccess | src/pages/Upload.tsx:109-115 | form and both slots cleared, success off, progress 0; the previews revoked are those recorded at submit (the submitting render's remove handlers), not the ones current at reset |
| Upload.PublishEnabledExactly | src/pages/Upload.tsx:398-404 | publish is enabled exactly with both files, a title of 3 to 100 and a description of 10 to 5000 code units, and no upload running or just finished |
| Register.BuildFormData | src/pages/Register.tsx:47-54 | the body holds the four text fields in order, then each image only if chosen |
| Register.BodyRoundTrip | src/pages/Register.tsx:47-54 | reading the body back gives the same registration; an image part exists exactly when the image was chosen |
| Register.Fields | src/pages/Register.tsx:47-54 | the entries `onSubmit` appends, in order; `BuildFormData` builds them and `BodyRoundTrip` reads them back |
| Register.Get | src/pages/Register.tsx:47-54 | `FormData.get`, the reader of the body above; `GetFindsFirst` states it |
| Register.GetFindsFirst | src/pages/Register.tsx:47-54 | `get` finds a value exactly when some entry has the name, and it is the first such entry's value |
| Register.SubmitOutcome | src/pages/Register.tsx:58-64 | navigation to `/login` happens exactly on fulfilment, with the success toast; otherwise "Registration failed. Try again." |
| Register.EmailCheckMatchesPattern | src/pages/Register.tsx:246-249 | the left-to-right check accepts exactly the strings matching `^[^\s@]+@[^\s@]+\.[^\s@]+$` |
| Register.EmailCheck | src/pages/Register.tsx:246-249 | the email test read left to right from the first `@`; `EmailCheckMatchesPattern` ties it to the regular expression |
| Register.FieldRules | src/pages/Register.tsx:209-272 | the form is valid exactly with a non-empty full name and username, an email matching the pattern, and a password of at least 8 code units |
| Register.FormValid | src/pages/Register.tsx:209-272 | the conjunction of the four fields' rules; `FieldRules` states it without the scan |
| Register.SizeBoundary | src/pages/Register.tsx:77 | exactly 5 MiB is accepted and one byte more is refused |
| Register.Page.HandleFileChange | src/pages/Register.tsx:71-88 | no file changes nothing; an oversize file shows "File too large (max 5MB)" and changes nothing; otherwise only that field is set and reading starts |
| Register.Page.PreviewLoaded | src/pages/Register.tsx:83-86 | the data URL becomes only that field's preview |
| Register.Page.RemoveFile | src/pages/Register.tsx:90-94 | the field and only its own preview are cleared |
| Register.Page.Submit | src/pages/Register.tsx:292 | a body is sent exactly when the form is valid, and it is the body built from the form |
| ErrorBoundary.Boundary.constructor | src/components/common/ErrorBoundary.tsx:28-33 | no error, no error info, not dark |
| ErrorBoundary.Boundary.ApplyDerivedStateFromError | src/components/common/ErrorBoundary.tsx:36-38 | `hasError` set and the error recorded; the rest merged unchanged |
| ErrorBoundary.Boundary.ComponentDidCatch | src/components/common/ErrorBoundary.tsx:40-46 | error and error info stored; the rest unchanged |
| ErrorBoundary.Boundary.CheckDarkMode | src/components/common/ErrorBoundary.tsx:52-55 | only the dark flag changes, to what the root says |
| ErrorBoundary.Boundary.HandleReset | src/components/common/ErrorBoundary.tsx:57-63 | error, info and `hasError` cleared; the dark flag kept |
| ErrorBoundary.Boundary.RenderNow | src/components/common/ErrorBoundary.tsx:69-150 | the view is `Render` of the current state |
| ErrorBoundary.RenderBranches | src/components/common/ErrorBoundary.tsx:69-75 | children exactly without an error, the fallback exactly with an error and a truthy fallback, otherwise the card |
| ErrorBoundary.Render | src/components/common/ErrorBoundary.tsx:69-150 | the view `render` returns; `RenderBranches`, `ErrorCardContents` and `ResetAfterCatch` state it |
| ErrorBoundary.ErrorCardContents | src/components/common/ErrorBoundary.tsx:99-112 | the card names the caught error; its stack shows exactly in development with error info known, and after `componentDidCatch` it is the caught component stack |
| ErrorBoundary.ResetAfterCatch | src/components/common/ErrorBoundary.tsx:57-63 | after any catch, resetting renders the children and keeps the dark flag; from a clean state, catch then reset restores it |
| ErrorBoundary.ErrorToString | src/components/common/ErrorBoundary.tsx:99 | `error.toString()` is empty only when name and message are, starts with the name, and ends with the message |

## Left out

- Thunks, the API modules and the store wiring are not part of this model.
  Each reducer receives the value it reads from the payload. Payload paths
  that may be undefined at run time are not modelled: `action.payload.user`
  on register, `payload.data.user` on login, and `payload.tweets` on
  getUserTweets.
- Rejection payloads are modelled as optional strings, as the reducers'
  `as string` casts declare. A thunk may in fact pass a response body there.
- The typing of `likedVideos` as `string[]` is not modelled; the list holds
  whatever the request returns.
- `LikeSlice.Slice`: `commentLiked` and `tweetLiked` are declared
  `boolean | null`, but they receive `res.data.data`
  (src/api/like/likeApi.ts:23, 36), an object. The model stores them as
  arbitrary values and does not promise a boolean.
- `SubscriptionSlice.Slice.ToggleSubscriptionFulfilled`: `isSubscribed` is
  declared `boolean`, but the toggle request returns `res.data`, the whole
  response envelope (src/api/susbscriptionApi.ts:9), and the reducer stores
  it. The model stores the flag as an arbitrary value and does not promise a
  boolean; only `setSubscriptionState` writes one. How the page reads a
  non-boolean flag (by truthiness) is not modelled.
- `useAuth` is not part of this model: its file is entirely commented out.
  The guards take `initialized`, `loading` and `isAuthenticated` as
  parameters.
- Browser effects are left out, because they run outside the model:
  - `localStorage`;
  - `matchMedia`;
  - `document.documentElement.classList`;
  - `window.location`;
  - `URL.createObjectURL` / `revokeObjectURL`;
  - `FileReader`;
  - `console` and `logger`.

  The theme at start is a constructor parameter. A revoked URL and a file's
  data URL are returned or passed in. Toasts and redirects are values.
- `UserSlice.Slice.ToggleTheme` and `UserSlice.Slice.SetTheme`: neither
  persists the theme nor toggles the root class.
- Timers (`setInterval`, `setTimeout`) are left out, as are the debounce
  hooks and `useFetch`. The upload's interval firings and its two timeouts
  are separate method calls. Their real timing and interleaving are not
  modelled. The interval's self-clearing at 100 is not modelled either,
  since a cleared interval no longer fires.
- Toasts are modelled only as the message each one shows. What is left out:
  - react-hot-toast's rendering, icons, durations and styles;
  - the interceptor calls `useToast()` inside a callback that is not a
    component (src/api/axiosInstance.ts:15). That breaks only the lint rule
    for hooks: `useToast` calls no React hook (src/hooks/useToast.ts:8-30),
    so the call always returns a working `showError`.
- `Routes.AppRoutes` matches paths case-sensitively. React Router matches
  them without regard to case.
- `Helpers.FormatDuration` takes natural numbers only; negative and
  fractional seconds are not modelled.
  - `formatNumber` is left out because it uses floating point.
  - `formatDate` is left out because it uses locale formatting.
  - The watch page's local copy of `formatDuration` has the same text and is
    not modelled twice.
- `VideoPage` covers only the clicks and the draft: play, mute and
  fullscreen are left out. So are the fetching effects, which only dispatch
  thunks.
- Strings are sequences of code points. `Text.Utf16Length` counts UTF-16
  units, so text outside the Basic Multilingual Plane counts as two units,
  as `.length` does. Unicode normalisation is not modelled.
- `ErrorBoundary.Boundary.RenderNow`: only which view is chosen and its data
  are modelled, not the markup.
  - `handleGoHome` is a browser redirect and is left out.
  - `Error.prototype.toString`'s defaults for an undefined name or message
    are not modelled; both come in as strings.
- `TweetPage`: the page imports `createTweet`, `deleteTweet`, `getAllTweets`,
  `getUserTweets` and `updateTweet` (src/pages/tweet/TweetPage.tsx:28-34).
  src/features/tweet/tweetThunks.ts exports only `createTweetThunk`,
  `getUserTweetsThunk`, `updateTweetThunk` and `deleteTweetThunk`
  (lines 10, 23, 36, 52). The model assumes each name refers to the thunk it
  evidently means. Under ES modules the import as written fails to link, and
  that failure is not modelled.
- `Register`: the avatar is labelled required but has no validation rule, so
  the model lets a form without one through, as the code does.
- `Register`: `showPassword` and `handleLogin` are left out, because they
  are pure presentation or navigation.
- `Register`: the `catch` branch of `onSubmit` is not modelled, because a
  dispatch that is not unwrapped does not throw.
- register.dfy, upload.dfy: `react-hook-form` is modelled as two steps.
  `handleSubmit` validates first and then calls the submit handler.
  `isValid` is the conjunction of the field rules. `required` rejects only
  the empty string. `minLength` and `maxLength` count UTF-16 units.

## Findings

| source | as written | input that shows it | evidently intended | confidence | as-written member | corrected member |
|---|---|---|---|---|---|---|
| src/pages/tweet/TweetPage.tsx:81-90 | `await dispatch(createTweet(tweetContent))` is not unwrapped. A rejected thunk therefore resolves, and the `catch` never runs. This assumes the wiring the code evidently intends: `createTweet` is the `createAsyncThunk` its name and the sibling `.unwrap()` calls (lines 100 and 110-112) presume. As imported (lines 28-34), the name does not resolve, because src/features/tweet/tweetThunks.ts exports `createTweetThunk` instead (line 10). | a non-blank post whose request is rejected: the box is cleared and "Tweet created successfully" is shown | on rejection the text stays and "Failed to post tweet" is shown; the sibling handlers call `.unwrap()` | not executed | TweetPage.PostOutcomeAsWritten (shown by TweetPage.RejectedPostReportsSuccess) | TweetPage.PostOutcomeIntended (used by TweetPage.Composer.FinishPost) |
