/** The auth slice: the session (user, token, loading flag, error) and the
    one durable browser-storage entry, the persisted token, that login and
    logout write and erase. */
module AuthSlice {
  import opened Wrappers

  /** The signed-in user. Counters are display values, never clamped. */
  datatype User = User(
    id: string,
    username: string,
    email: string,
    avatar: Option<string>,
    bio: Option<string>,
    followersCount: int,
    followingCount: int,
    postsCount: int)

  /** `Partial<User>`. A required field is absent or present; an optional one
      (`avatar?`, `bio?`) may also be present with the value `undefined`,
      written `Some(None)`, which the spread copies over the old value. */
  datatype UserPatch = UserPatch(
    id: Option<string>,
    username: Option<string>,
    email: Option<string>,
    avatar: Option<Option<string>>,
    bio: Option<Option<string>>,
    followersCount: Option<int>,
    followingCount: Option<int>,
    postsCount: Option<int>)

  const NoChanges: UserPatch := UserPatch(None, None, None, None, None, None, None, None)

  /** Every field the patch carries holds the patch's value in `user`. */
  predicate Agrees(patch: UserPatch, user: User) {
    && (patch.id.Some? ==> patch.id.value == user.id)
    && (patch.username.Some? ==> patch.username.value == user.username)
    && (patch.email.Some? ==> patch.email.value == user.email)
    && (patch.avatar.Some? ==> patch.avatar.value == user.avatar)
    && (patch.bio.Some? ==> patch.bio.value == user.bio)
    && (patch.followersCount.Some? ==> patch.followersCount.value == user.followersCount)
    && (patch.followingCount.Some? ==> patch.followingCount.value == user.followingCount)
    && (patch.postsCount.Some? ==> patch.postsCount.value == user.postsCount)
  }

  /** Every field the patch leaves out is the same in `before` and `after`. */
  predicate KeepsUnpatched(patch: UserPatch, before: User, after: User) {
    && (patch.id.None? ==> after.id == before.id)
    && (patch.username.None? ==> after.username == before.username)
    && (patch.email.None? ==> after.email == before.email)
    && (patch.avatar.None? ==> after.avatar == before.avatar)
    && (patch.bio.None? ==> after.bio == before.bio)
    && (patch.followersCount.None? ==> after.followersCount == before.followersCount)
    && (patch.followingCount.None? ==> after.followingCount == before.followingCount)
    && (patch.postsCount.None? ==> after.postsCount == before.postsCount)
  }

  /** The shallow merge `{ ...user, ...patch }`: the patched fields take the
      patch's values, the others keep the user's. */
  function MergeUser(user: User, patch: UserPatch): (merged: User)
    ensures Agrees(patch, merged)
    ensures KeepsUnpatched(patch, user, merged)
  {
    User(
      patch.id.GetOr(user.id),
      patch.username.GetOr(user.username),
      patch.email.GetOr(user.email),
      patch.avatar.GetOr(user.avatar),
      patch.bio.GetOr(user.bio),
      patch.followersCount.GetOr(user.followersCount),
      patch.followingCount.GetOr(user.followingCount),
      patch.postsCount.GetOr(user.postsCount))
  }

  /** The edit form's patch `{ bio, avatar }`: both always present, as strings
      (an empty string when the user had none). They overwrite; the id, the
      names, the email and the counters are kept. */
  lemma MergeUserEditForm(user: User, bio: string, avatar: string)
    ensures var merged := MergeUser(user, NoChanges.(bio := Some(Some(bio)), avatar := Some(Some(avatar))));
      && merged.bio == Some(bio) && merged.avatar == Some(avatar)
      && merged == user.(bio := Some(bio), avatar := Some(avatar))
  {
  }

  /** The empty patch keeps the user; merging a patch again changes nothing more. */
  lemma MergeUserLaws(user: User, patch: UserPatch)
    ensures MergeUser(user, NoChanges) == user
    ensures MergeUser(MergeUser(user, patch), patch) == MergeUser(user, patch)
  {
  }

  /** The session state, plus `storedToken`, the value under the `token` key of
      the browser's local storage. */
  class AuthState {
    var user: Option<User>
    var token: Option<string>
    var isLoading: bool
    var error: Option<string>
    var storedToken: Option<string>

    /** A user is only ever present together with a token. */
    predicate UserImpliesToken()
      reads this
    {
      user.Some? ==> token.Some?
    }

    /** The in-memory token is the persisted one. */
    predicate TokenPersisted()
      reads this
    {
      token == storedToken
    }

    /** `initialState`: the token is read once from storage (`stored`, None
        when the key is absent); no user yet. */
    constructor (stored: Option<string>)
      ensures user == None && token == stored && !isLoading && error == None
      ensures storedToken == stored
      ensures UserImpliesToken() && TokenPersisted()
    {
      user := None;
      token := stored;
      isLoading := false;
      error := None;
      storedToken := stored;
    }

    method SetLoading(loading: bool)
      modifies this
      ensures isLoading == loading
      ensures user == old(user) && token == old(token) && error == old(error) && storedToken == old(storedToken)
      ensures old(UserImpliesToken()) ==> UserImpliesToken()
      ensures old(TokenPersisted()) ==> TokenPersisted()
    {
      isLoading := loading;
    }

    method SetError(message: Option<string>)
      modifies this
      ensures error == message
      ensures user == old(user) && token == old(token) && isLoading == old(isLoading) && storedToken == old(storedToken)
      ensures old(UserImpliesToken()) ==> UserImpliesToken()
      ensures old(TokenPersisted()) ==> TokenPersisted()
    {
      error := message;
    }

    /** Hydrates the session and persists the token. */
    method LoginSuccess(u: User, t: string)
      modifies this
      ensures user == Some(u) && token == Some(t) && !isLoading && error == None
      ensures storedToken == Some(t)
      ensures UserImpliesToken() && TokenPersisted()
    {
      user := Some(u);
      token := Some(t);
      isLoading := false;
      error := None;
      storedToken := Some(t);
    }

    /** Ends the session and erases the persisted token; `isLoading` stays. */
    method Logout()
      modifies this
      ensures user == None && token == None && error == None
      ensures storedToken == None
      ensures isLoading == old(isLoading)
      ensures UserImpliesToken() && TokenPersisted()
    {
      user := None;
      token := None;
      error := None;
      storedToken := None;
    }

    /** Merges `patch` into the signed-in user; nothing happens without one. */
    method UpdateProfile(patch: UserPatch)
      modifies this
      ensures old(user).None? ==> user == None
      ensures old(user).Some? ==> user == Some(MergeUser(old(user).value, patch))
      ensures token == old(token) && isLoading == old(isLoading) && error == old(error)
      ensures storedToken == old(storedToken)
      ensures old(UserImpliesToken()) ==> UserImpliesToken()
      ensures old(TokenPersisted()) ==> TokenPersisted()
    {
      if user.Some? {
        user := Some(MergeUser(user.value, patch));
      }
    }
  }

  /** After `loginSuccess(u, t)` a reload, which builds the state afresh from
      storage, finds exactly `t`; after `logout` it finds no token. */
  method LoginThenReload(stored: Option<string>, u: User, t: string) returns (reloaded: AuthState)
    ensures reloaded.token == Some(t) && reloaded.user == None
  {
    var session := new AuthState(stored);
    session.LoginSuccess(u, t);
    reloaded := new AuthState(session.storedToken);
  }

  method LogoutThenReload(stored: Option<string>, u: User, t: string) returns (reloaded: AuthState)
    ensures reloaded.token == None && reloaded.user == None
  {
    var session := new AuthState(stored);
    session.LoginSuccess(u, t);
    session.Logout();
    reloaded := new AuthState(session.storedToken);
  }
}
