/** Shared vocabulary of the app: the enumerations of src/lib/constants.ts and
    the rows of the games, game_participants and profiles tables. */
module Domain {

  datatype Option<+T> = None | Some(value: T)

  type UserId = string
  type LocationId = string
  /** Game ids and participant row ids are generated by the store. */
  type GameId = nat
  type RowId = nat

  /** Timestamps are integer milliseconds since the epoch. */
  type Millis = int

  const MinuteMs: int := 60 * 1000

  datatype Sport = Pickleball | Spikeball
  datatype SkillLevel = Beginner | Intermediate | Advanced | AnyLevel
  datatype GameStatus = Open | Full | Cancelled | Completed
  datatype ParticipantStatus = Joined | Left

  /** A row of the games table. */
  datatype Game = Game(
    id: GameId,
    hostId: UserId,
    sport: Sport,
    skillLevel: SkillLevel,
    locationId: Option<LocationId>,
    startsAt: Millis,
    maxPlayers: int,
    status: GameStatus,
    hasEquipment: bool,
    extraEquipment: bool,
    timeFlexible: bool,
    notes: Option<string>)

  /** A row of the game_participants table. */
  datatype Participant = Participant(id: RowId, gameId: GameId, userId: UserId, status: ParticipantStatus)

  /** A row of the profiles table, keyed by the user id. */
  datatype Profile = Profile(
    id: UserId,
    displayName: Option<string>,
    avatarUrl: Option<string>,
    expoPushToken: Option<string>,
    preferredSport: Option<Sport>,
    skillLevel: Option<SkillLevel>,
    favoriteLocationId: Option<LocationId>,
    onboarded: bool)

  /** A game is live (shown in the feed, eligible for reminders) while open or full. */
  predicate IsLive(s: GameStatus) {
    s == Open || s == Full
  }

  /** JavaScript truthiness of an optional string: null and "" are both falsy. */
  predicate Present(s: Option<string>) {
    s.Some? && s.value != ""
  }
}
