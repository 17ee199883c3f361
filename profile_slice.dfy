/** The profile slice: the profile being viewed, that author's posts, and the
    optimistic follow toggle. */
module ProfileSlice {
  import opened Wrappers
  import PostsSlice

  /** A user as seen on a profile page. `isFollowing` is absent on the
      viewer's own profile; `followersCount` is never clamped. */
  datatype ProfileUser = ProfileUser(
    id: string,
    username: string,
    email: Option<string>,
    avatar: Option<string>,
    bio: Option<string>,
    followersCount: int,
    followingCount: int,
    postsCount: int,
    isFollowing: Option<bool>)

  /** JavaScript truthiness of an optional boolean: absent reads as false. */
  function Truthy(b: Option<bool>): (t: bool)
    ensures t == b.GetOr(false)
  {
    b == Some(true)
  }

  /** The profile after `toggleFollow`: `isFollowing` becomes the negation of
      its old value (absent counts as false), and `followersCount` moves by +1
      when the profile is now followed and by -1 otherwise; nothing else moves. */
  function FollowToggled(profile: ProfileUser): (toggled: ProfileUser)
    ensures toggled.isFollowing == Some(!Truthy(profile.isFollowing))
    ensures toggled.followersCount - profile.followersCount == if Truthy(toggled.isFollowing) then 1 else -1
    ensures toggled.(isFollowing := profile.isFollowing, followersCount := profile.followersCount) == profile
  {
    if Truthy(profile.isFollowing)
    then profile.(isFollowing := Some(false), followersCount := profile.followersCount - 1)
    else profile.(isFollowing := Some(true), followersCount := profile.followersCount + 1)
  }

  /** Toggling twice restores the profile when `isFollowing` was defined; from
      an absent value the count is restored and `isFollowing` ends up false. */
  lemma FollowToggledTwice(profile: ProfileUser)
    ensures profile.isFollowing.Some? ==> FollowToggled(FollowToggled(profile)) == profile
    ensures profile.isFollowing.None? ==> FollowToggled(FollowToggled(profile)) == profile.(isFollowing := Some(false))
  {
    match profile.isFollowing
    case Some(following) =>
      assert profile == profile.(isFollowing := Some(following));
    case None =>
  }

  /** The slice state: `currentProfile`, `profilePosts`, `isLoading`, `error`. */
  class ProfileState {
    var currentProfile: Option<ProfileUser>
    var profilePosts: seq<PostsSlice.Post>
    var isLoading: bool
    var error: Option<string>

    /** `initialState`. */
    constructor ()
      ensures currentProfile == None && profilePosts == [] && !isLoading && error == None
    {
      currentProfile := None;
      profilePosts := [];
      isLoading := false;
      error := None;
    }

    method SetLoading(loading: bool)
      modifies this
      ensures isLoading == loading
      ensures currentProfile == old(currentProfile) && profilePosts == old(profilePosts) && error == old(error)
    {
      isLoading := loading;
    }

    method SetError(message: Option<string>)
      modifies this
      ensures error == message
      ensures currentProfile == old(currentProfile) && profilePosts == old(profilePosts) && isLoading == old(isLoading)
    {
      error := message;
    }

    method SetCurrentProfile(profile: ProfileUser)
      modifies this
      ensures currentProfile == Some(profile)
      ensures profilePosts == old(profilePosts) && isLoading == old(isLoading) && error == old(error)
    {
      currentProfile := Some(profile);
    }

    method SetProfilePosts(list: seq<PostsSlice.Post>)
      modifies this
      ensures profilePosts == list
      ensures currentProfile == old(currentProfile) && isLoading == old(isLoading) && error == old(error)
    {
      profilePosts := list;
    }

    /** Flips the follow flag of the current profile in place, then moves its
        follower count; nothing happens when no profile is loaded. */
    method ToggleFollow()
      modifies this
      ensures old(currentProfile).None? ==> currentProfile == None
      ensures old(currentProfile).Some? ==> currentProfile == Some(FollowToggled(old(currentProfile).value))
      ensures profilePosts == old(profilePosts) && isLoading == old(isLoading) && error == old(error)
    {
      if currentProfile.Some? {
        var profile := currentProfile.value;
        profile := profile.(isFollowing := Some(!Truthy(profile.isFollowing)));
        profile := profile.(followersCount := profile.followersCount + if Truthy(profile.isFollowing) then 1 else -1);
        currentProfile := Some(profile);
      }
    }

    /** Resets the view state on leaving a profile page; `isLoading` stays. */
    method ClearProfile()
      modifies this
      ensures currentProfile == None && profilePosts == [] && error == None
      ensures isLoading == old(isLoading)
    {
      currentProfile := None;
      profilePosts := [];
      error := None;
    }
  }

  /** Two `toggleFollow` calls in succession: the follower count comes back,
      and so does a defined `isFollowing`. */
  method ToggleFollowTwice(state: ProfileState)
    modifies state
    ensures old(state.currentProfile).None? ==> state.currentProfile == None
    ensures old(state.currentProfile).Some? ==>
      (state.currentProfile.Some? &&
       state.currentProfile.value.followersCount == old(state.currentProfile).value.followersCount)
    ensures old(state.currentProfile).Some? && old(state.currentProfile).value.isFollowing.Some? ==>
      state.currentProfile == old(state.currentProfile)
    ensures old(state.currentProfile).Some? && old(state.currentProfile).value.isFollowing.None? ==>
      state.currentProfile == Some(old(state.currentProfile).value.(isFollowing := Some(false)))
    ensures state.profilePosts == old(state.profilePosts)
    ensures state.isLoading == old(state.isLoading) && state.error == old(state.error)
  {
    state.ToggleFollow();
    state.ToggleFollow();
    if old(state.currentProfile).Some? {
      FollowToggledTwice(old(state.currentProfile).value);
    }
  }

  /** Following a profile with ten followers shows eleven. */
  method FollowScenario(profile: ProfileUser) returns (state: ProfileState)
    requires profile.isFollowing == Some(false) && profile.followersCount == 10
    ensures state.currentProfile.Some?
    ensures state.currentProfile.value.isFollowing == Some(true)
    ensures state.currentProfile.value.followersCount == 11
  {
    state := new ProfileState();
    state.SetCurrentProfile(profile);
    state.ToggleFollow();
  }
}
