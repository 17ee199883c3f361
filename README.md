# ConnectSphere client state, modelled in Dafny

ConnectSphere is a browser social-networking client. Its client-side state
lives in four Redux Toolkit slices, and each slice is a record of fields
changed in place by named reducers:

- **posts**: the global feed and its pagination bookkeeping;
- **profile**: the profile being viewed, that author's posts, and the optimistic follow toggle;
- **auth**: the session, and the token persisted in browser storage;
- **messages**: the conversation list, the active-conversation pointer and one flat message list.

Next to the slices sits `formatDistanceToNow`, which buckets a time
difference into "just now", minutes, hours or days.

Each slice is a Dafny `class` (`PostsState`, `ProfileState`, `AuthState`,
`MessagesState`). Its fields are the slice's fields, its constructor is the
slice's `initialState`, and each reducer is a method. Every method states
the slice's whole new state. The non-trivial reducer logic is specified by
pure functions with lemmas about them:

- the `findIndex` lookup (`FirstIndex`, with the loop `FindIndex` proved against it);
- the shallow merges `{ ...x, ...patch }` (`Merge`, `MergeUser`);
- the `filter` of `deletePost` (`Filtered`);
- the like and follow toggles (`LikeToggle`, `FollowToggled`).

Properties that span several reducer calls are proved in two ways: as
lemmas about those functions, and as small client methods that call the
reducers in sequence (`AddPages`, `NewestFirstScenario`,
`SwitchConversationScenario`, and others). `Partial<T>` is a patch record
of `Option` fields. TypeScript's `null` and optional properties become
`Option`.

Files:

- `wrappers.dfy`: `Option`.
- `posts_slice.dfy`: module `PostsSlice`. It also holds the like toggle of the post card.
- `profile_slice.dfy`: module `ProfileSlice`.
- `auth_slice.dfy`: module `AuthSlice`.
- `messages_slice.dfy`: module `MessagesSlice`.
- `date_utils.dfy`: module `DateUtils`.

Two behaviours of the code worth stating:

- Toggling follow twice from an absent `isFollowing`: the code ends with
  `isFollowing == false`, not absent. `!undefined` is `true`, then `!true`
  is `false`. See `FollowToggledTwice`.
- `updatePost` merges into the FIRST post with the id only. `deletePost`
  removes every post with it.

## Model

| member | source | states |
|---|---|---|
| `PostsSlice.PostsState.constructor` | src/store/slices/postsSlice.ts:36-41 | the feed starts empty, not loading, with `hasMore` true and page 1 |
| `PostsSlice.PostsState.SetLoading` | src/store/slices/postsSlice.ts:47-49 | only `isLoading` changes |
| `PostsSlice.PostsState.SetPosts` | src/store/slices/postsSlice.ts:50-53 | the feed becomes exactly the list and the page resets to 1; `hasMore` and `isLoading` are kept |
| `PostsSlice.PostsState.AddPosts` | src/store/slices/postsSlice.ts:54-57 | the batch is appended at the end in order and the page rises by one |
| `PostsSlice.PostsState.AddPost` | src/store/slices/postsSlice.ts:58-60 | the post is put at the head of the feed; nothing else changes |
| `PostsSlice.PostsState.UpdatePost` | src/store/slices/postsSlice.ts:61-66 | the feed becomes `Updated(old feed, id, updates)`: the first post with the id is merged with the patch, or nothing changes |
| `PostsSlice.PostsState.DeletePost` | src/store/slices/postsSlice.ts:67-69 | the feed becomes the filtered feed, with no post left that carries the id |
| `PostsSlice.PostsState.SetHasMore` | src/store/slices/postsSlice.ts:70-72 | only `hasMore` changes |
| `PostsSlice.FirstIndex` | src/store/slices/postsSlice.ts:62 | the result is -1 exactly when no post has the id; otherwise it is an index whose post has the id, and no earlier post has it |
| `PostsSlice.FindIndex` | src/store/slices/postsSlice.ts:62 | the linear scan returns the first matching index, or -1 when nothing matches; it agrees with `FirstIndex` |
| `PostsSlice.Merge` | src/store/slices/postsSlice.ts:64 | every field the patch carries takes the patch's value, and every field it leaves out keeps the post's |
| `PostsSlice.MergeNoopIff` | src/store/slices/postsSlice.ts:64 | the empty patch keeps the post; a merge leaves the post unchanged exactly when every field in the patch already holds that value |
| `PostsSlice.MergeIdempotent` | src/store/slices/postsSlice.ts:64 | merging the same patch twice equals merging it once |
| `PostsSlice.Updated` | src/store/slices/postsSlice.ts:61-66 | the feed keeps its length, and every post with another id stays where it was, unchanged |
| `PostsSlice.UpdateMissingIsNoop` | src/store/slices/postsSlice.ts:61-66 | an id that no post carries leaves the feed unchanged, with no error |
| `PostsSlice.UpdateChangesFirstMatchOnly` | src/store/slices/postsSlice.ts:61-66 | only the first post with the id is merged; every other index, later duplicates included, and the length are unchanged |
| `PostsSlice.UpdateIdempotent` | src/store/slices/postsSlice.ts:61-66 | applying a patch twice equals applying it once, provided the patch does not change the id |
| `PostsSlice.Filtered` | src/store/slices/postsSlice.ts:68 | no kept post has the id; a post is kept exactly when it was in the feed with another id; the result is no longer than the feed |
| `PostsSlice.FilteredConcat` | src/store/slices/postsSlice.ts:68 | filtering distributes over concatenation, so the survivors keep their relative order |
| `PostsSlice.FilteredCounts` | src/store/slices/postsSlice.ts:68 | each survivor occurs as often as before, and each removed post no longer occurs |
| `PostsSlice.FilteredMissingIsNoop` | src/store/slices/postsSlice.ts:68 | a feed without the id is returned unchanged |
| `PostsSlice.FilteredIdempotent` | src/store/slices/postsSlice.ts:67-69 | a second `deletePost` with the same id changes nothing |
| `PostsSlice.DeleteTwice` | src/store/slices/postsSlice.ts:67-69 | two `deletePost` calls leave the same feed as one, and keep `isLoading`, `hasMore` and `page` |
| `PostsSlice.AddPages` | src/store/slices/postsSlice.ts:54-57 | N `addPosts` calls raise the page by N and append the batches in order, so the length grows by their summed sizes |
| `PostsSlice.NewestFirstScenario` | src/store/slices/postsSlice.ts:50-60 | `setPosts([])`, `addPost(x)`, `addPost(y)` gives `[y, x]` with page 1 |
| `PostsSlice.LikeToggle` | src/components/Posts/PostCard.tsx:33-34 | the like patch flips `isLiked` and moves `likesCount` by -1 when the post was liked, +1 otherwise; it touches no other field |
| `PostsSlice.LikeToggleTwice` | src/components/Posts/PostCard.tsx:30-35 | liking and then unliking, each patch computed from the post then shown, restores the post |
| `PostsSlice.LikeToggleTwiceInFeed` | src/components/Posts/PostCard.tsx:30-35 | two like toggles sent through `updatePost` for the first post with an id restore the whole feed |
| `PostsSlice.PostsState.ToggleLike` | src/components/Posts/PostCard.tsx:30-35 | the like button is `updatePost` with the like patch; pagination fields are kept |
| `ProfileSlice.ProfileState.constructor` | src/store/slices/profileSlice.ts:23-28 | starts with no profile, no posts, not loading and no error |
| `ProfileSlice.ProfileState.SetLoading` | src/store/slices/profileSlice.ts:34-36 | only `isLoading` changes |
| `ProfileSlice.ProfileState.SetError` | src/store/slices/profileSlice.ts:37-39 | only `error` changes |
| `ProfileSlice.ProfileState.SetCurrentProfile` | src/store/slices/profileSlice.ts:40-42 | replaces exactly `currentProfile` |
| `ProfileSlice.ProfileState.SetProfilePosts` | src/store/slices/profileSlice.ts:43-45 | replaces exactly `profilePosts` |
| `ProfileSlice.ProfileState.ToggleFollow` | src/store/slices/profileSlice.ts:46-51 | does nothing without a profile; otherwise the profile becomes `FollowToggled` of the old one; posts, loading flag and error are kept |
| `ProfileSlice.ProfileState.ClearProfile` | src/store/slices/profileSlice.ts:52-56 | no profile, no posts, no error; `isLoading` is kept |
| `ProfileSlice.Truthy` | src/store/slices/profileSlice.ts:48 | an optional boolean reads as its value, and an absent one as false, as `!undefined` is `true` |
| `ProfileSlice.FollowToggled` | src/store/slices/profileSlice.ts:48-49 | `isFollowing` becomes the negation of the old value, with absent read as false; the count moves +1 when now following and -1 otherwise; no other field changes |
| `ProfileSlice.FollowToggledTwice` | src/store/slices/profileSlice.ts:46-51 | toggling twice restores a profile with a defined `isFollowing`; from an absent one the count is restored and `isFollowing` ends up false |
| `ProfileSlice.ToggleFollowTwice` | src/store/slices/profileSlice.ts:46-51 | two `toggleFollow` calls restore the follower count, and the whole profile when `isFollowing` was defined; from an absent one the profile comes back with `isFollowing` false; posts, loading flag and error are kept |
| `ProfileSlice.FollowScenario` | src/store/slices/profileSlice.ts:40-51 | a profile with 10 followers and `isFollowing` false shows 11 followers and `isFollowing` true after one toggle |
| `AuthSlice.AuthState.constructor` | src/store/slices/authSlice.ts:21-26 | no user; the token is the persisted one, or none when nothing is stored; both invariants hold |
| `AuthSlice.AuthState.SetLoading` | src/store/slices/authSlice.ts:32-34 | only `isLoading` changes; both invariants are preserved |
| `AuthSlice.AuthState.SetError` | src/store/slices/authSlice.ts:35-37 | only `error` changes; both invariants are preserved |
| `AuthSlice.AuthState.LoginSuccess` | src/store/slices/authSlice.ts:38-44 | user and token are set, loading and error are cleared, and the token is persisted; both invariants hold |
| `AuthSlice.AuthState.Logout` | src/store/slices/authSlice.ts:45-50 | user, token and error are cleared and the persisted token is removed; `isLoading` is kept; both invariants hold |
| `AuthSlice.AuthState.UpdateProfile` | src/store/slices/authSlice.ts:51-55 | does nothing without a user; otherwise the patch is merged into the user; the token and the persisted token are untouched; both invariants are preserved |
| `AuthSlice.MergeUser` | src/store/slices/authSlice.ts:53 | every field the patch carries takes the patch's value, and every field it leaves out keeps the user's |
| `AuthSlice.AuthState.UserImpliesToken` | src/store/slices/authSlice.ts:21-56 | the invariant "a user is present only with a token"; the constructor establishes it and every reducer preserves it (see their rows) |
| `AuthSlice.AuthState.TokenPersisted` | src/store/slices/authSlice.ts:23-50 | the invariant "the in-memory token equals the persisted one"; the constructor establishes it and every reducer preserves it (see their rows) |
| `AuthSlice.MergeUserLaws` | src/store/slices/authSlice.ts:53 | the empty patch keeps the user, and merging a patch twice equals merging it once |
| `AuthSlice.MergeUserEditForm` | src/pages/EditProfile.tsx:10-13 | the edit form's `{ bio, avatar }` patch overwrites those two fields and keeps every other field |
| `AuthSlice.LoginThenReload` | src/store/slices/authSlice.ts:21-44 | after `loginSuccess(u, t)`, a state rebuilt from storage has token `t` |
| `AuthSlice.LogoutThenReload` | src/store/slices/authSlice.ts:21-50 | after `logout`, a state rebuilt from storage has no token |
| `MessagesSlice.MessagesState.constructor` | src/store/slices/messagesSlice.ts:28-33 | no conversations, no active pointer, no messages, not loading |
| `MessagesSlice.MessagesState.SetLoading` | src/store/slices/messagesSlice.ts:39-41 | only `isLoading` changes |
| `MessagesSlice.MessagesState.SetConversations` | src/store/slices/messagesSlice.ts:42-44 | replaces the list exactly; the pointer and the messages are untouched |
| `MessagesSlice.MessagesState.SetActiveConversation` | src/store/slices/messagesSlice.ts:45-47 | sets only the pointer, to any id, listed or not; the messages stay |
| `MessagesSlice.MessagesState.SetMessages` | src/store/slices/messagesSlice.ts:48-50 | the messages become exactly the list |
| `MessagesSlice.MessagesState.AddMessage` | src/store/slices/messagesSlice.ts:51-53 | appends one message: the earlier prefix is unchanged and the length grows by one |
| `MessagesSlice.SwitchConversationScenario` | src/store/slices/messagesSlice.ts:45-53 | select c1, load `[m1, m2]`, add m3, select c2: the messages are still `[m1, m2, m3]` |
| `DateUtils.FormatDistanceToNow` | src/utils/dateUtils.ts:1-19 | the result is "just now" exactly when the difference is under one minute, and the locale date exactly when it is 7 days or more |
| `DateUtils.NatToString` | src/utils/dateUtils.ts:11 | a number prints as a non-empty string of decimal digits with no leading zero |
| `DateUtils.NatStringRoundTrip` | src/utils/dateUtils.ts:11 | reading the printed digits back gives the number |
| `DateUtils.NestedFloorsCollapse` | src/utils/dateUtils.ts:4-6 | the nested floors give hours = floor(ms / 3 600 000) and days = floor(ms / 86 400 000) |
| `DateUtils.FormatDistanceJustNow` | src/utils/dateUtils.ts:4-9 | any difference under 60 000 ms, negative ones included, gives "just now" |
| `DateUtils.FormatDistanceMinutes` | src/utils/dateUtils.ts:10-11 | from 1 minute to under 1 hour: the minute count, between 1 and 59, followed by "m" |
| `DateUtils.FormatDistanceHours` | src/utils/dateUtils.ts:12-13 | from 1 hour to under 1 day: the hour count, between 1 and 23, followed by "h" |
| `DateUtils.FormatDistanceDays` | src/utils/dateUtils.ts:14-15 | from 1 day to under 7 days: the day count, between 1 and 6, followed by "d" |
| `DateUtils.FormatDistanceOlder` | src/utils/dateUtils.ts:16-17 | 7 days or more gives the locale date |
| `DateUtils.FormatDistanceExactlyOneBucket` | src/utils/dateUtils.ts:8-18 | exactly one branch applies: each output form holds exactly when the difference is in that form's millisecond range |

## Left out

- The HTTP client and the domain API modules (`src/api/*.ts`). They are network calls with nothing to verify.
- Pages and components. They are React rendering, routing, browser APIs and mock fixtures. Two pieces of view logic are the exceptions: the like toggle of the post card, modelled in `PostsSlice`, and the `{ bio, avatar }` patch of the profile edit form, modelled in `AuthSlice.MergeUserEditForm`.
- Store wiring (`src/store/index.ts`) and route configuration (`src/App.tsx`). They have no behaviour of their own.
- Concurrency: interleaved asynchronous responses, stale responses overwriting newer state, and the in-flight guards of the components.
- `formatTime` and the `toLocaleDateString` branch. Both are locale-dependent host formatting. The latter is the abstract value `LocaleDate`.
- `LocaleDate` is one constant for every date 7 or more days old, so the model cannot tell two old dates' printed forms apart, whereas `toLocaleDateString` prints each date differently.
- Reading the clock. `FormatDistanceToNow` takes the difference `now - date` in milliseconds as an integer. Invalid dates (NaN) are not modelled.
- Real `localStorage`. It is the field `AuthState.storedToken`, and the constructor receives the stored value as a parameter.
- `Comment` and the optional `Post.comments` field. No reducer reads or writes them.
- JavaScript numbers are doubles. Counters and `page` are unbounded integers here, so precision loss beyond 2^53 is not modelled.
- `Partial<T>` as an explicit `undefined` on a required field. TypeScript admits it, and the spread would copy it. A patch here can only omit a required field or give it a value. Optional fields (`avatar`, `bio` of the user) do carry an explicit `undefined`, as `Some(None)`.
- Immer's copy-on-write drafts. Nested records (the current profile, posts) are values, so there is no aliasing between the state and the payload objects.
