/** The push-reminder edge function: on each scheduled invocation it picks the
    live games starting 30 to 35 minutes from now, builds one reminder per joined
    participant that has a push token, and posts the batch to the push service. */
module PushReminder {
  import opened Domain
  import opened Backend

  /** The scheduler's period, which is also the width of the reminder window. */
  const PeriodMs: int := 5 * MinuteMs

  function WindowStart(now: Millis): Millis { now + 30 * MinuteMs }
  function WindowEnd(now: Millis): Millis { now + 35 * MinuteMs }

  /** The half-open window `[now + 30 min, now + 35 min)`. */
  predicate InWindow(now: Millis, t: Millis) {
    WindowStart(now) <= t < WindowEnd(now)
  }

  /** The games query: status open or full, starting inside the window. */
  predicate Selected(now: Millis, g: Game) {
    IsLive(g.status) && InWindow(now, g.startsAt)
  }

  /** The games the query returns, in table order. */
  function Upcoming(now: Millis, gs: seq<Game>): (r: seq<Game>)
    ensures |r| <= |gs|
  {
    if gs == [] then []
    else if Selected(now, gs[0]) then [gs[0]] + Upcoming(now, gs[1..])
    else Upcoming(now, gs[1..])
  }

  /** The participants query for one game: its rows with status joined, in table order. */
  function JoinedRows(ps: seq<Participant>, g: GameId): (r: seq<Participant>)
  {
    if ps == [] then []
    else if ps[0].gameId == g && ps[0].status == Joined then [ps[0]] + JoinedRows(ps[1..], g)
    else JoinedRows(ps[1..], g)
  }

  /** The games query returns exactly the selected games of the table. */
  lemma {:induction false} UpcomingMembership(now: Millis, gs: seq<Game>, g: Game)
    ensures g in Upcoming(now, gs) <==> g in gs && Selected(now, g)
  {
    if gs != [] {
      UpcomingMembership(now, gs[1..], g);
      assert gs == [gs[0]] + gs[1..];
    }
  }

  /** The roster query returns exactly the joined rows of that game. */
  lemma {:induction false} JoinedRowsMembership(ps: seq<Participant>, g: GameId, p: Participant)
    ensures p in JoinedRows(ps, g) <==> p in ps && p.gameId == g && p.status == Joined
  {
    if ps != [] {
      JoinedRowsMembership(ps[1..], g, p);
      assert ps == [ps[0]] + ps[1..];
    }
  }

  /** `profile?.expo_push_token`: nothing when the user has no profile row. */
  function TokenOf(profiles: map<UserId, Profile>, u: UserId): Option<string> {
    if u in profiles then profiles[u].expoPushToken else None
  }

  datatype Message = Message(to: string, title: string, body: string, gameId: GameId)

  function SportName(s: Sport): string {
    if s == Pickleball then "Pickleball" else "Spikeball"
  }

  /** The joined location's name, or "TBD" when the game has none. */
  function LocationName(g: Game, locations: map<LocationId, string>): string {
    if g.locationId.Some? && g.locationId.value in locations then locations[g.locationId.value] else "TBD"
  }

  function Reminder(g: Game, token: string, locations: map<LocationId, string>): Message {
    Message(token,
            SportName(g.sport) + " in 30 min!",
            "Your game at " + LocationName(g, locations) + " starts soon. Don't forget your gear!",
            g.id)
  }

  /** A reminder goes to the token, carries the game's id, names the sport in its title,
      and names the court, or "TBD" without one, in its body. */
  lemma ReminderText(g: Game, token: string, locations: map<LocationId, string>)
    ensures Reminder(g, token, locations).to == token && Reminder(g, token, locations).gameId == g.id
    ensures Reminder(g, token, locations).title
         == if g.sport == Pickleball then "Pickleball in 30 min!" else "Spikeball in 30 min!"
    ensures g.locationId.Some? && g.locationId.value in locations ==>
              (Reminder(g, token, locations).body
               == "Your game at " + locations[g.locationId.value] + " starts soon. Don't forget your gear!")
    ensures g.locationId.None? || g.locationId.value !in locations ==>
              Reminder(g, token, locations).body == "Your game at " + "TBD" + " starts soon. Don't forget your gear!"
  {
    var suffix := " in 30 min!";
    assert "Pickleball" + suffix == "Pickleball in 30 min!";
    assert "Spikeball" + suffix == "Spikeball in 30 min!";
  }

  /** The tokens of the rows that can receive a push, in row order. */
  function Recipients(rows: seq<Participant>, profiles: map<UserId, Profile>): (r: seq<string>)
    ensures |r| <= |rows|
    ensures forall t :: t in r ==> t != ""
  {
    if rows == [] then []
    else
      var tok := TokenOf(profiles, rows[0].userId);
      (if Present(tok) then [tok.value] else []) + Recipients(rows[1..], profiles)
  }

  /** The messages the inner loop appends for one game, given that game's rows. */
  function GameMessages(g: Game, rows: seq<Participant>, profiles: map<UserId, Profile>,
                        locations: map<LocationId, string>): seq<Message>
  {
    if rows == [] then []
    else
      var last := rows[|rows| - 1];
      var tok := TokenOf(profiles, last.userId);
      GameMessages(g, rows[..|rows| - 1], profiles, locations)
        + (if Present(tok) then [Reminder(g, tok.value, locations)] else [])
  }

  /** The messages one game contributes: none when its participants query returned null. */
  function ForGame(g: Game, ps: seq<Participant>, profiles: map<UserId, Profile>,
                   locations: map<LocationId, string>, nullParticipants: set<GameId>): seq<Message>
  {
    if g.id in nullParticipants then [] else GameMessages(g, JoinedRows(ps, g.id), profiles, locations)
  }

  /** The messages the outer loop builds over the games `gs`. */
  function AllMessages(gs: seq<Game>, ps: seq<Participant>, profiles: map<UserId, Profile>,
                       locations: map<LocationId, string>, nullParticipants: set<GameId>): seq<Message>
  {
    if gs == [] then []
    else AllMessages(gs[..|gs| - 1], ps, profiles, locations, nullParticipants)
           + ForGame(gs[|gs| - 1], ps, profiles, locations, nullParticipants)
  }

  /** Queries that come back with null data instead of rows. */
  datatype QueryFaults = QueryFaults(gamesNull: bool, participantsNull: set<GameId>)

  /** The batch one invocation at time `now` builds from the store's tables. */
  function Batch(now: Millis, gs: seq<Game>, ps: seq<Participant>, profiles: map<UserId, Profile>,
                 locations: map<LocationId, string>, faults: QueryFaults): seq<Message>
  {
    if faults.gamesNull then [] else AllMessages(Upcoming(now, gs), ps, profiles, locations, faults.participantsNull)
  }

  // ----- The window -----

  /** Invocations one period apart have adjacent windows: one ends where the next begins. */
  lemma WindowsAdjacent(now: Millis)
    ensures WindowEnd(now) == WindowStart(now + PeriodMs)
    ensures forall t :: !(InWindow(now, t) && InWindow(now + PeriodMs, t))
  {
  }

  /** On the schedule `t0 + k * PeriodMs`, a start time `s` lies in the window of
      exactly one invocation: the one with index `(s - t0 - 30 min) / PeriodMs`. */
  lemma ExactlyOneTick(t0: Millis, k: int, s: Millis)
    ensures InWindow(t0 + k * PeriodMs, s) <==> k == (s - WindowStart(t0)) / PeriodMs
  {
    var d := s - WindowStart(t0);
    var q := d / PeriodMs;
    assert q * PeriodMs <= d < q * PeriodMs + PeriodMs;
    if InWindow(t0 + k * PeriodMs, s) {
      assert k * PeriodMs <= d < k * PeriodMs + PeriodMs;
      assert (k - q) * PeriodMs < PeriodMs && (q - k) * PeriodMs < PeriodMs;
    }
  }

  // ----- The messages -----

  lemma {:induction false} RecipientsSnoc(rows: seq<Participant>, p: Participant, profiles: map<UserId, Profile>)
    ensures Recipients(rows + [p], profiles)
         == Recipients(rows, profiles)
            + (if Present(TokenOf(profiles, p.userId)) then [TokenOf(profiles, p.userId).value] else [])
  {
    if rows == [] {
      assert rows + [p] == [p];
    } else {
      var q := rows + [p];
      assert q[0] == rows[0] && q[1..] == rows[1..] + [p];
      RecipientsSnoc(rows[1..], p, profiles);
      var tok := TokenOf(profiles, rows[0].userId);
      var last := TokenOf(profiles, p.userId);
      ConcatAssoc(if Present(tok) then [tok.value] else [], Recipients(rows[1..], profiles),
                  if Present(last) then [last.value] else []);
    }
  }

  /** One game's messages are exactly one reminder per row that has a token, in row
      order, each addressed to that token and tagged with the game's id; rows without
      a token are skipped. */
  lemma {:induction false} GameMessagesAreReminders(g: Game, rows: seq<Participant>, profiles: map<UserId, Profile>,
                                                    locations: map<LocationId, string>)
    ensures |GameMessages(g, rows, profiles, locations)| == |Recipients(rows, profiles)|
    ensures forall k :: 0 <= k < |Recipients(rows, profiles)| ==>
              GameMessages(g, rows, profiles, locations)[k] == Reminder(g, Recipients(rows, profiles)[k], locations)
  {
    if rows != [] {
      var init := rows[..|rows| - 1];
      var last := rows[|rows| - 1];
      assert rows == init + [last];
      GameMessagesAreReminders(g, init, profiles, locations);
      RecipientsSnoc(init, last, profiles);
    }
  }

  /** Every message of one game's batch goes to a row of that game's roster that has a token. */
  lemma {:induction false} GameMessagesFrom(g: Game, rows: seq<Participant>, profiles: map<UserId, Profile>,
                                            locations: map<LocationId, string>, m: Message)
    requires m in GameMessages(g, rows, profiles, locations)
    ensures exists p :: p in rows && Present(TokenOf(profiles, p.userId))
                        && m == Reminder(g, TokenOf(profiles, p.userId).value, locations)
  {
    var init := rows[..|rows| - 1];
    var last := rows[|rows| - 1];
    if m in GameMessages(g, init, profiles, locations) {
      GameMessagesFrom(g, init, profiles, locations, m);
      var p :| p in init && Present(TokenOf(profiles, p.userId))
               && m == Reminder(g, TokenOf(profiles, p.userId).value, locations);
      assert p in rows;
    } else {
      assert last in rows;
    }
  }

  /** Every row of one game's roster that has a token receives a message. */
  lemma {:induction false} GameMessagesTo(g: Game, rows: seq<Participant>, profiles: map<UserId, Profile>,
                                          locations: map<LocationId, string>, p: Participant)
    requires p in rows && Present(TokenOf(profiles, p.userId))
    ensures Reminder(g, TokenOf(profiles, p.userId).value, locations) in GameMessages(g, rows, profiles, locations)
  {
    var init := rows[..|rows| - 1];
    assert rows == init + [rows[|rows| - 1]];
    if p != rows[|rows| - 1] {
      GameMessagesTo(g, init, profiles, locations, p);
    }
  }

  lemma SplitLast<T>(a: seq<T>, b: seq<T>)
    requires b != []
    ensures (a + b)[..|a + b| - 1] == a + b[..|b| - 1]
    ensures (a + b)[|a + b| - 1] == b[|b| - 1]
  {
  }

  lemma ConcatAssoc<T>(a: seq<T>, b: seq<T>, c: seq<T>)
    ensures (a + b) + c == a + (b + c)
  {
  }

  /** The batch is built game by game: the messages for a list of games are those
      of its first part followed by those of the rest. */
  lemma {:induction false} AllMessagesAppend(gs1: seq<Game>, gs2: seq<Game>, ps: seq<Participant>,
                                             profiles: map<UserId, Profile>, locations: map<LocationId, string>,
                                             nulls: set<GameId>)
    ensures AllMessages(gs1 + gs2, ps, profiles, locations, nulls)
         == AllMessages(gs1, ps, profiles, locations, nulls) + AllMessages(gs2, ps, profiles, locations, nulls)
  {
    if gs2 == [] {
      assert gs1 + gs2 == gs1;
    } else {
      var init := gs2[..|gs2| - 1];
      var last := gs2[|gs2| - 1];
      var whole := gs1 + gs2;
      SplitLast(gs1, gs2);
      AllMessagesAppend(gs1, init, ps, profiles, locations, nulls);
      var A := AllMessages(gs1, ps, profiles, locations, nulls);
      var B := AllMessages(init, ps, profiles, locations, nulls);
      var C := ForGame(last, ps, profiles, locations, nulls);
      assert AllMessages(whole, ps, profiles, locations, nulls) == (A + B) + C;
      assert AllMessages(gs2, ps, profiles, locations, nulls) == B + C;
      ConcatAssoc(A, B, C);
    }
  }

  /** A message is in the batch for the games `gs` exactly when it is the reminder for
      a game of `gs` whose roster query succeeded and a joined row of that game with a token. */
  lemma {:induction false} AllMessagesMembership(gs: seq<Game>, ps: seq<Participant>, profiles: map<UserId, Profile>,
                                                 locations: map<LocationId, string>, nulls: set<GameId>, m: Message)
    ensures m in AllMessages(gs, ps, profiles, locations, nulls)
        <==> exists g, p :: g in gs && g.id !in nulls && p in JoinedRows(ps, g.id)
                            && Present(TokenOf(profiles, p.userId))
                            && m == Reminder(g, TokenOf(profiles, p.userId).value, locations)
  {
    if gs != [] {
      var init := gs[..|gs| - 1];
      var last := gs[|gs| - 1];
      assert gs == init + [last];
      AllMessagesMembership(init, ps, profiles, locations, nulls, m);
      if m in ForGame(last, ps, profiles, locations, nulls) {
        GameMessagesFrom(last, JoinedRows(ps, last.id), profiles, locations, m);
      }
      if exists g, p :: g in gs && g.id !in nulls && p in JoinedRows(ps, g.id)
                        && Present(TokenOf(profiles, p.userId))
                        && m == Reminder(g, TokenOf(profiles, p.userId).value, locations) {
        var g, p :| g in gs && g.id !in nulls && p in JoinedRows(ps, g.id)
                    && Present(TokenOf(profiles, p.userId))
                    && m == Reminder(g, TokenOf(profiles, p.userId).value, locations);
        if g == last {
          GameMessagesTo(last, JoinedRows(ps, last.id), profiles, locations, p);
        } else {
          assert g in init;
        }
      }
    }
  }

  /** A reminder goes out only for a selected game: open or full and starting inside the window. */
  lemma BatchOnlySelected(now: Millis, gs: seq<Game>, ps: seq<Participant>, profiles: map<UserId, Profile>,
                          locations: map<LocationId, string>, faults: QueryFaults, m: Message)
    requires m in Batch(now, gs, ps, profiles, locations, faults)
    ensures exists g :: g in gs && g.id == m.gameId && IsLive(g.status)
                        && WindowStart(now) <= g.startsAt < WindowEnd(now)
  {
    AllMessagesMembership(Upcoming(now, gs), ps, profiles, locations, faults.participantsNull, m);
    var g, p :| g in Upcoming(now, gs) && g.id !in faults.participantsNull && p in JoinedRows(ps, g.id)
                && Present(TokenOf(profiles, p.userId))
                && m == Reminder(g, TokenOf(profiles, p.userId).value, locations);
    UpcomingMembership(now, gs, g);
  }

  /** With unchanged tables with distinct game ids, invocations one period apart never
      remind about the same game. */
  lemma ConsecutiveTicksNeverRepeatAGame(now: Millis, gs: seq<Game>, ps: seq<Participant>,
                                         profiles: map<UserId, Profile>, locations: map<LocationId, string>,
                                         faults: QueryFaults, m1: Message, m2: Message)
    requires DistinctGameIds(gs)
    requires m1 in Batch(now, gs, ps, profiles, locations, faults)
    requires m2 in Batch(now + PeriodMs, gs, ps, profiles, locations, faults)
    ensures m1.gameId != m2.gameId
  {
    BatchOnlySelected(now, gs, ps, profiles, locations, faults, m1);
    BatchOnlySelected(now + PeriodMs, gs, ps, profiles, locations, faults, m2);
    var g1 :| g1 in gs && g1.id == m1.gameId && IsLive(g1.status) && InWindow(now, g1.startsAt);
    var g2 :| g2 in gs && g2.id == m2.gameId && IsLive(g2.status) && InWindow(now + PeriodMs, g2.startsAt);
  }

  // ----- The handler -----

  /** The push service, seen from outside: the batches the function attempted to post
      to it, in order, whether or not the service was reachable. */
  class PushEndpoint {
    var requests: seq<seq<Message>>

    constructor ()
      ensures requests == []
    {
      requests := [];
    }
  }

  /** `sendPushNotifications`: an empty batch is not posted; `unreachable` stands for
      the request throwing. A non-success HTTP status is not inspected. */
  method SendPushNotifications(endpoint: PushEndpoint, messages: seq<Message>, unreachable: bool)
    returns (threw: bool)
    modifies endpoint
    ensures endpoint.requests == if messages == [] then old(endpoint.requests) else old(endpoint.requests) + [messages]
    ensures threw <==> messages != [] && unreachable
  {
    if |messages| == 0 {
      return false;
    }
    endpoint.requests := endpoint.requests + [messages];
    threw := unreachable;
  }

  datatype Response = Sent(count: nat) | ServerError

  /** The inner loop of the handler: one reminder per joined row whose profile has a
      push token, in row order. */
  method GameReminders(game: Game, participants: seq<Participant>, profiles: map<UserId, Profile>,
                       locations: map<LocationId, string>)
    returns (messages: seq<Message>)
    ensures messages == GameMessages(game, participants, profiles, locations)
  {
    messages := [];
    var j := 0;
    while j < |participants|
      invariant 0 <= j <= |participants|
      invariant messages == GameMessages(game, participants[..j], profiles, locations)
    {
      var token := TokenOf(profiles, participants[j].userId);
      assert participants[..j + 1][..j] == participants[..j];
      if Present(token) {
        messages := messages + [Reminder(game, token.value, locations)];
      }
      j := j + 1;
    }
    assert participants[..j] == participants;
  }

  /** One invocation of the function at time `now`. */
  method HandleInvocation(now: Millis, store: Store, faults: QueryFaults, endpoint: PushEndpoint, unreachable: bool)
    returns (resp: Response)
    modifies endpoint
    ensures var batch := Batch(now, store.games, store.participants, store.profiles, store.locations, faults);
            && endpoint.requests == (if batch == [] then old(endpoint.requests) else old(endpoint.requests) + [batch])
            && resp == (if batch != [] && unreachable then ServerError else Sent(|batch|))
  {
    if faults.gamesNull {
      return Sent(0);
    }
    var upcoming := Upcoming(now, store.games);
    if |upcoming| == 0 {
      return Sent(0);
    }
    var ps, profiles, locations, nulls := store.participants, store.profiles, store.locations, faults.participantsNull;
    var messages: seq<Message> := [];
    var i := 0;
    while i < |upcoming|
      invariant 0 <= i <= |upcoming|
      invariant messages == AllMessages(upcoming[..i], ps, profiles, locations, nulls)
      modifies {}
    {
      var game := upcoming[i];
      assert upcoming[..i + 1][..i] == upcoming[..i];
      if game.id !in nulls {
        var reminders := GameReminders(game, JoinedRows(ps, game.id), profiles, locations);
        messages := messages + reminders;
      }
      i := i + 1;
    }
    assert upcoming[..i] == upcoming;
    var threw := SendPushNotifications(endpoint, messages, unreachable);
    if threw {
      resp := ServerError;
    } else {
      resp := Sent(|messages|);
    }
  }
}
