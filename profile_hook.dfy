/** The profile hook: a cached copy of the signed-in user's profile row, refreshed
    by `fetchProfile` and merged by `updateProfile` after a successful write. */
module ProfileHook {
  import opened Domain
  import opened Backend

  /** What `updateProfile` resolves to: nothing without a user, else the write's error. */
  datatype UpdateReply = NotSignedIn | Replied(failed: bool)

  /** The cache after `setProfile(prev => prev ? { ...prev, ...updates } : null)`. */
  function MergedCache(prev: Option<Profile>, updates: ProfilePatch): (r: Option<Profile>)
    ensures r.None? <==> prev.None?
    ensures r.Some? ==> r.value.id == prev.value.id
    ensures (&& updates.displayName.None? && updates.avatarUrl.None? && updates.expoPushToken.None?
             && updates.preferredSport.None? && updates.skillLevel.None? && updates.favoriteLocationId.None?
             && updates.onboarded.None?) ==> r == prev
  {
    if prev.Some? then Some(Patched(prev.value, updates)) else None
  }

  /** Merging the same update twice is merging it once. */
  lemma MergeIdempotent(prev: Option<Profile>, updates: ProfilePatch)
    ensures MergedCache(MergedCache(prev, updates), updates) == MergedCache(prev, updates)
  {
  }

  /** The later patch's value where it names a field, else the earlier one's. */
  function Later<T>(earlier: Option<T>, later: Option<T>): Option<T> {
    if later.Some? then later else earlier
  }

  /** Two updates made one: each field from `u2` when it names it, else from `u1`. */
  function Then(u1: ProfilePatch, u2: ProfilePatch): ProfilePatch {
    ProfilePatch(Later(u1.displayName, u2.displayName), Later(u1.avatarUrl, u2.avatarUrl),
                 Later(u1.expoPushToken, u2.expoPushToken), Later(u1.preferredSport, u2.preferredSport),
                 Later(u1.skillLevel, u2.skillLevel), Later(u1.favoriteLocationId, u2.favoriteLocationId),
                 Later(u1.onboarded, u2.onboarded))
  }

  /** A later update of a field wins over an earlier one; fields the later update does
      not name keep the earlier value. Merging two updates in turn is merging the one
      update `Then(u1, u2)`, on every field of the record. */
  lemma MergeLaterWins(p: Profile, u1: ProfilePatch, u2: ProfilePatch)
    ensures Patched(Patched(p, u1), u2) == Patched(p, Then(u1, u2))
    ensures Patched(Patched(p, u1), u2).displayName
         == if u2.displayName.Some? then u2.displayName.value else Patched(p, u1).displayName
    ensures Patched(Patched(p, u1), u2).onboarded
         == if u2.onboarded.Some? then u2.onboarded.value else if u1.onboarded.Some? then u1.onboarded.value else p.onboarded
  {
  }

  class ProfileCache {
    const userId: Option<UserId>
    var profile: Option<Profile>
    var loading: bool

    constructor (u: Option<UserId>)
      ensures userId == u && profile == None && loading
    {
      userId := u;
      profile, loading := None, true;
    }

    /** `fetchProfile`. `queryFails` stands for the query returning no data. */
    method FetchProfile(store: Store, queryFails: bool)
      modifies this
      ensures !Present(userId) ==> profile == old(profile) && loading == old(loading)
      ensures Present(userId) ==> !loading
      ensures Present(userId) ==>
                profile == if !queryFails && userId.value in store.profiles then Some(store.profiles[userId.value])
                           else old(profile)
    {
      if !Present(userId) {
        return;
      }
      var data: Option<Profile> := None;
      if !queryFails && userId.value in store.profiles {
        data := Some(store.profiles[userId.value]);
      }
      if data.Some? {
        profile := data;
      }
      loading := false;
    }

    /** `updateProfile`. `writeFails` stands for the update returning an error. */
    method UpdateProfile(store: Store, updates: ProfilePatch, writeFails: bool) returns (reply: UpdateReply)
      requires store.Valid()
      modifies this, store
      ensures store.Valid()
      ensures !Present(userId) ==> reply == NotSignedIn && profile == old(profile) && store.profiles == old(store.profiles)
      ensures Present(userId) ==> reply == Replied(writeFails)
      ensures Present(userId) && writeFails ==> profile == old(profile) && store.profiles == old(store.profiles)
      ensures Present(userId) && !writeFails ==>
                && profile == MergedCache(old(profile), updates)
                && store.profiles == (if userId.value in old(store.profiles)
                                      then old(store.profiles)[userId.value := Patched(old(store.profiles)[userId.value], updates)]
                                      else old(store.profiles))
      ensures Present(userId) && userId.value in old(store.profiles) && old(profile) == Some(old(store.profiles)[userId.value])
              ==> userId.value in store.profiles && profile == Some(store.profiles[userId.value])
      ensures store.games == old(store.games) && store.participants == old(store.participants)
      ensures store.locations == old(store.locations) && store.nextId == old(store.nextId)
      ensures loading == old(loading)
    {
      if !Present(userId) {
        return NotSignedIn;
      }
      if !writeFails {
        store.UpdateProfile(userId.value, updates);
        profile := MergedCache(profile, updates);
      }
      reply := Replied(writeFails);
    }
  }
}
