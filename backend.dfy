/** An in-memory stand-in for the hosted relational store: the four tables the
    app reads and writes, and the handful of row operations its queries perform.
    Generated ids come from a counter, so every id the store hands out is fresh. */
module Backend {
  import opened Domain

  predicate DistinctGameIds(gs: seq<Game>) {
    forall i, j :: 0 <= i < j < |gs| ==> gs[i].id != gs[j].id
  }

  predicate DistinctRowIds(ps: seq<Participant>) {
    forall i, j :: 0 <= i < j < |ps| ==> ps[i].id != ps[j].id
  }

  /** A partial profile: a field given as Some(v) is overwritten with v, None leaves it. */
  datatype ProfilePatch = ProfilePatch(
    displayName: Option<Option<string>>,
    avatarUrl: Option<Option<string>>,
    expoPushToken: Option<Option<string>>,
    preferredSport: Option<Option<Sport>>,
    skillLevel: Option<Option<SkillLevel>>,
    favoriteLocationId: Option<Option<LocationId>>,
    onboarded: Option<bool>)

  /** A field after a spread: the supplied value if there is one, else the current one. */
  function Override<T>(current: T, given: Option<T>): T {
    if given.Some? then given.value else current
  }

  /** The row `{ ...p, ...u }`: supplied fields win, every other field is kept. */
  function Patched(p: Profile, u: ProfilePatch): (r: Profile)
    ensures r.id == p.id
    ensures u.displayName.Some? ==> r.displayName == u.displayName.value
    ensures u.displayName.None? ==> r.displayName == p.displayName
    ensures u.avatarUrl.Some? ==> r.avatarUrl == u.avatarUrl.value
    ensures u.avatarUrl.None? ==> r.avatarUrl == p.avatarUrl
    ensures u.expoPushToken.Some? ==> r.expoPushToken == u.expoPushToken.value
    ensures u.expoPushToken.None? ==> r.expoPushToken == p.expoPushToken
    ensures u.preferredSport.Some? ==> r.preferredSport == u.preferredSport.value
    ensures u.preferredSport.None? ==> r.preferredSport == p.preferredSport
    ensures u.skillLevel.Some? ==> r.skillLevel == u.skillLevel.value
    ensures u.skillLevel.None? ==> r.skillLevel == p.skillLevel
    ensures u.favoriteLocationId.Some? ==> r.favoriteLocationId == u.favoriteLocationId.value
    ensures u.favoriteLocationId.None? ==> r.favoriteLocationId == p.favoriteLocationId
    ensures u.onboarded.Some? ==> r.onboarded == u.onboarded.value
    ensures u.onboarded.None? ==> r.onboarded == p.onboarded
  {
    Profile(p.id,
            Override(p.displayName, u.displayName),
            Override(p.avatarUrl, u.avatarUrl),
            Override(p.expoPushToken, u.expoPushToken),
            Override(p.preferredSport, u.preferredSport),
            Override(p.skillLevel, u.skillLevel),
            Override(p.favoriteLocationId, u.favoriteLocationId),
            Override(p.onboarded, u.onboarded))
  }

  /** `update({ status: st }).eq("game_id", g).eq("user_id", u)` on the participant rows. */
  function SetStatusForPair(ps: seq<Participant>, g: GameId, u: UserId, st: ParticipantStatus): (r: seq<Participant>)
    ensures |r| == |ps|
    ensures forall i :: 0 <= i < |ps| ==> r[i].id == ps[i].id && r[i].gameId == ps[i].gameId && r[i].userId == ps[i].userId
    ensures forall i :: 0 <= i < |ps| && ps[i].gameId == g && ps[i].userId == u ==> r[i].status == st
    ensures forall i :: 0 <= i < |ps| && !(ps[i].gameId == g && ps[i].userId == u) ==> r[i] == ps[i]
  {
    seq(|ps|, i requires 0 <= i < |ps| =>
      if ps[i].gameId == g && ps[i].userId == u then ps[i].(status := st) else ps[i])
  }

  /** `update({ status: st }).eq("id", id)` on the participant rows. */
  function SetStatusForId(ps: seq<Participant>, id: RowId, st: ParticipantStatus): (r: seq<Participant>)
    ensures |r| == |ps|
    ensures forall i :: 0 <= i < |ps| ==> r[i].id == ps[i].id && r[i].gameId == ps[i].gameId && r[i].userId == ps[i].userId
    ensures forall i :: 0 <= i < |ps| && ps[i].id == id ==> r[i].status == st
    ensures forall i :: 0 <= i < |ps| && ps[i].id != id ==> r[i] == ps[i]
  {
    seq(|ps|, i requires 0 <= i < |ps| =>
      if ps[i].id == id then ps[i].(status := st) else ps[i])
  }

  /** The rows for the pair (g, u), in table order. */
  function RowsForPair(ps: seq<Participant>, g: GameId, u: UserId): (r: seq<Participant>)
    ensures |r| <= |ps|
    ensures forall p :: p in r <==> p in ps && p.gameId == g && p.userId == u
  {
    if ps == [] then []
    else if ps[0].gameId == g && ps[0].userId == u then [ps[0]] + RowsForPair(ps[1..], g, u)
    else RowsForPair(ps[1..], g, u)
  }

  /** `select(...).eq("game_id", g).eq("user_id", u).single()`: the row when exactly one
      matches, and no data otherwise (zero rows and several rows are both errors). */
  function SelectSingle(ps: seq<Participant>, g: GameId, u: UserId): (r: Option<Participant>)
    ensures r.Some? <==> |RowsForPair(ps, g, u)| == 1
    ensures r.Some? ==> r.value in ps && r.value.gameId == g && r.value.userId == u
  {
    var rows := RowsForPair(ps, g, u);
    if |rows| == 1 then Some(rows[0]) else None
  }

  class Store {
    var games: seq<Game>
    var participants: seq<Participant>
    var profiles: map<UserId, Profile>
    var locations: map<LocationId, string>
    var nextId: nat

    /** Ids are distinct and every id handed out so far is below the counter. */
    ghost predicate Valid()
      reads this
    {
      && DistinctGameIds(games)
      && DistinctRowIds(participants)
      && (forall i :: 0 <= i < |games| ==> games[i].id < nextId)
      && (forall i :: 0 <= i < |participants| ==> participants[i].id < nextId)
    }

    constructor (gs: seq<Game>, ps: seq<Participant>, profs: map<UserId, Profile>,
                 locs: map<LocationId, string>, next: nat)
      requires DistinctGameIds(gs) && DistinctRowIds(ps)
      requires forall i :: 0 <= i < |gs| ==> gs[i].id < next
      requires forall i :: 0 <= i < |ps| ==> ps[i].id < next
      ensures Valid()
      ensures games == gs && participants == ps && profiles == profs && locations == locs && nextId == next
    {
      games, participants, profiles, locations, nextId := gs, ps, profs, locs, next;
    }

    method UpdateStatusForPair(g: GameId, u: UserId, st: ParticipantStatus)
      requires Valid()
      modifies this
      ensures Valid()
      ensures participants == SetStatusForPair(old(participants), g, u, st)
      ensures games == old(games) && profiles == old(profiles) && locations == old(locations) && nextId == old(nextId)
    {
      participants := SetStatusForPair(participants, g, u, st);
    }

    method UpdateStatusForId(id: RowId, st: ParticipantStatus)
      requires Valid()
      modifies this
      ensures Valid()
      ensures participants == SetStatusForId(old(participants), id, st)
      ensures games == old(games) && profiles == old(profiles) && locations == old(locations) && nextId == old(nextId)
    {
      participants := SetStatusForId(participants, id, st);
    }

    method InsertParticipant(g: GameId, u: UserId, st: ParticipantStatus) returns (id: RowId)
      requires Valid()
      modifies this
      ensures Valid()
      ensures id == old(nextId) && nextId == id + 1
      ensures participants == old(participants) + [Participant(id, g, u, st)]
      ensures games == old(games) && profiles == old(profiles) && locations == old(locations)
    {
      id := nextId;
      participants := participants + [Participant(id, g, u, st)];
      nextId := nextId + 1;
    }

    /** Inserts `row` under a fresh id and returns that id. */
    method InsertGame(row: Game) returns (id: GameId)
      requires Valid()
      modifies this
      ensures Valid()
      ensures id == old(nextId) && nextId == id + 1
      ensures games == old(games) + [row.(id := id)]
      ensures participants == old(participants) && profiles == old(profiles) && locations == old(locations)
    {
      id := nextId;
      games := games + [row.(id := id)];
      nextId := nextId + 1;
    }

    /** `update(patch).eq("id", u)` on profiles: a missing row is not an error and changes nothing. */
    method UpdateProfile(u: UserId, patch: ProfilePatch)
      requires Valid()
      modifies this
      ensures Valid()
      ensures profiles == if u in old(profiles) then old(profiles)[u := Patched(old(profiles)[u], patch)] else old(profiles)
      ensures games == old(games) && participants == old(participants) && locations == old(locations) && nextId == old(nextId)
    {
      if u in profiles {
        profiles := profiles[u := Patched(profiles[u], patch)];
      }
    }
  }
}
