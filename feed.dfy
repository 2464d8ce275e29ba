/** The games feed hook: which games the feed lists and in what order, and how the
    hook's `games`, `loading` and `refreshing` state change when a fetch completes. */
module Feed {
  import opened Domain
  import opened Backend

  datatype FeedOptions = FeedOptions(sportFilter: Option<Sport>, myOnly: bool, userId: Option<UserId>)

  /** `myOnly && userId`: the "my games" restriction applies only with a non-empty user id. */
  predicate MyGamesActive(o: FeedOptions) {
    o.myOnly && Present(o.userId)
  }

  /** The participant query of the "my games" tab: the ids of the games where `u` has a
      joined row, in table order. */
  function JoinedGameIds(ps: seq<Participant>, u: UserId): seq<GameId> {
    if ps == [] then []
    else (if ps[0].userId == u && ps[0].status == Joined then [ps[0].gameId] else []) + JoinedGameIds(ps[1..], u)
  }

  /** `u` has a joined row for game `id`. */
  predicate HasJoinedRow(ps: seq<Participant>, u: UserId, id: GameId) {
    exists p :: p in ps && p.userId == u && p.status == Joined && p.gameId == id
  }

  lemma {:induction false} JoinedGameIdsMembership(ps: seq<Participant>, u: UserId, id: GameId)
    ensures id in JoinedGameIds(ps, u) <==> HasJoinedRow(ps, u, id)
  {
    if ps != [] {
      JoinedGameIdsMembership(ps[1..], u, id);
      assert ps == [ps[0]] + ps[1..];
    }
  }

  /** The query's filters: open or full, not yet started, the sport filter, and for
      "my games" hosted by the user or listed among `myIds`. */
  predicate Visible(g: Game, now: Millis, o: FeedOptions, myIds: seq<GameId>) {
    && IsLive(g.status)
    && g.startsAt >= now
    && (o.sportFilter.Some? ==> g.sport == o.sportFilter.value)
    && (MyGamesActive(o) ==> g.hostId == o.userId.value || g.id in myIds)
  }

  function Matching(gs: seq<Game>, now: Millis, o: FeedOptions, myIds: seq<GameId>): (r: seq<Game>)
    ensures multiset(r) <= multiset(gs)
    ensures forall g :: g in r <==> g in gs && Visible(g, now, o, myIds)
  {
    if gs == [] then []
    else
      var rest := Matching(gs[1..], now, o, myIds);
      assert gs == [gs[0]] + gs[1..];
      if Visible(gs[0], now, o, myIds) then [gs[0]] + rest else rest
  }

  predicate SortedByStart(gs: seq<Game>) {
    forall i, j :: 0 <= i < j < |gs| ==> gs[i].startsAt <= gs[j].startsAt
  }

  function InsertByStart(x: Game, s: seq<Game>): (r: seq<Game>)
    requires SortedByStart(s)
    ensures SortedByStart(r)
    ensures multiset(r) == multiset(s) + multiset{x}
  {
    if s == [] then [x]
    else if x.startsAt <= s[0].startsAt then [x] + s
    else
      var rest := InsertByStart(x, s[1..]);
      assert s == [s[0]] + s[1..];
      assert forall y :: y in rest ==> s[0].startsAt <= y.startsAt by {
        forall y | y in rest ensures s[0].startsAt <= y.startsAt {
          assert y in multiset(rest);
          if y != x {
            assert y in multiset(s[1..]);
            var k :| 0 <= k < |s[1..]| && s[1..][k] == y;
            assert s[k + 1] == y;
          }
        }
      }
      [s[0]] + rest
  }

  /** `order("starts_at", { ascending: true })`; ties keep table order. */
  function SortByStart(gs: seq<Game>): (r: seq<Game>)
    ensures SortedByStart(r)
    ensures multiset(r) == multiset(gs)
  {
    if gs == [] then []
    else
      assert gs == [gs[0]] + gs[1..];
      InsertByStart(gs[0], SortByStart(gs[1..]))
  }

  /** The ids the "my games" filter accepts besides the host test: none when the
      restriction is off or the participant query returned null. */
  function MyGameIds(ps: seq<Participant>, o: FeedOptions, participantsNull: bool): seq<GameId> {
    if MyGamesActive(o) && !participantsNull then JoinedGameIds(ps, o.userId.value) else []
  }

  /** The games the feed query returns. */
  function FeedGames(gs: seq<Game>, ps: seq<Participant>, now: Millis, o: FeedOptions, participantsNull: bool): seq<Game> {
    SortByStart(Matching(gs, now, o, MyGameIds(ps, o, participantsNull)))
  }

  /** The filter keeps every copy of a visible game and no copy of any other. */
  lemma {:induction false} MatchingCounts(gs: seq<Game>, now: Millis, o: FeedOptions, myIds: seq<GameId>, g: Game)
    ensures multiset(Matching(gs, now, o, myIds))[g] == if Visible(g, now, o, myIds) then multiset(gs)[g] else 0
  {
    if gs != [] {
      MatchingCounts(gs[1..], now, o, myIds, g);
      assert gs == [gs[0]] + gs[1..];
    }
  }

  /** The feed lists each game of the table that passes the filters, as often as it
      occurs there, and nothing else, in ascending start order. */
  lemma FeedIsSortedSelection(gs: seq<Game>, ps: seq<Participant>, now: Millis, o: FeedOptions, participantsNull: bool)
    ensures SortedByStart(FeedGames(gs, ps, now, o, participantsNull))
    ensures multiset(FeedGames(gs, ps, now, o, participantsNull)) <= multiset(gs)
    ensures forall g :: g in FeedGames(gs, ps, now, o, participantsNull)
                    <==> g in gs && Visible(g, now, o, MyGameIds(ps, o, participantsNull))
    ensures forall g :: multiset(FeedGames(gs, ps, now, o, participantsNull))[g]
                     == if Visible(g, now, o, MyGameIds(ps, o, participantsNull)) then multiset(gs)[g] else 0
  {
    var myIds := MyGameIds(ps, o, participantsNull);
    var m := Matching(gs, now, o, myIds);
    assert forall g :: g in FeedGames(gs, ps, now, o, participantsNull) <==> g in multiset(m);
    forall g {
      MatchingCounts(gs, now, o, myIds, g);
    }
  }

  /** Every listed game is open or full, has not started, and has the filtered sport. */
  lemma FeedGameFacts(gs: seq<Game>, ps: seq<Participant>, now: Millis, o: FeedOptions, participantsNull: bool, g: Game)
    requires g in FeedGames(gs, ps, now, o, participantsNull)
    ensures g.status == Open || g.status == Full
    ensures g.startsAt >= now
    ensures o.sportFilter.Some? ==> g.sport == o.sportFilter.value
  {
    FeedIsSortedSelection(gs, ps, now, o, participantsNull);
  }

  /** On the "my games" tab with a user id, a live, future game of the right sport is
      listed exactly when the user hosts it or has a joined row for it. */
  lemma MyGamesRule(gs: seq<Game>, ps: seq<Participant>, now: Millis, o: FeedOptions, g: Game)
    requires MyGamesActive(o)
    requires g in gs && IsLive(g.status) && g.startsAt >= now
    requires o.sportFilter.Some? ==> g.sport == o.sportFilter.value
    ensures g in FeedGames(gs, ps, now, o, false) <==> g.hostId == o.userId.value || HasJoinedRow(ps, o.userId.value, g.id)
  {
    FeedIsSortedSelection(gs, ps, now, o, false);
    JoinedGameIdsMembership(ps, o.userId.value, g.id);
  }

  /** When the participant query returns null, only the host test applies. */
  lemma MyGamesWithoutRows(gs: seq<Game>, ps: seq<Participant>, now: Millis, o: FeedOptions, g: Game)
    requires MyGamesActive(o)
    requires g in gs && IsLive(g.status) && g.startsAt >= now
    requires o.sportFilter.Some? ==> g.sport == o.sportFilter.value
    ensures g in FeedGames(gs, ps, now, o, true) <==> g.hostId == o.userId.value
  {
    FeedIsSortedSelection(gs, ps, now, o, true);
  }

  lemma {:induction false} MatchingSameFilter(gs: seq<Game>, now: Millis, o1: FeedOptions, ids1: seq<GameId>,
                                              o2: FeedOptions, ids2: seq<GameId>)
    requires forall g :: g in gs ==> (Visible(g, now, o1, ids1) <==> Visible(g, now, o2, ids2))
    ensures Matching(gs, now, o1, ids1) == Matching(gs, now, o2, ids2)
  {
    if gs != [] {
      assert gs == [gs[0]] + gs[1..];
      MatchingSameFilter(gs[1..], now, o1, ids1, o2, ids2);
    }
  }

  /** "My games" without a user id adds no restriction: the feed is the full feed. */
  lemma MyOnlyWithoutUser(gs: seq<Game>, ps: seq<Participant>, now: Millis, o: FeedOptions, participantsNull: bool)
    requires !Present(o.userId)
    ensures FeedGames(gs, ps, now, o, participantsNull) == FeedGames(gs, ps, now, o.(myOnly := false), participantsNull)
  {
    MatchingSameFilter(gs, now, o, MyGameIds(ps, o, participantsNull),
                       o.(myOnly := false), MyGameIds(ps, o.(myOnly := false), participantsNull));
  }

  class GamesFeed {
    const options: FeedOptions
    var games: seq<Game>
    var loading: bool
    var refreshing: bool

    constructor (o: FeedOptions)
      ensures options == o && games == [] && loading && !refreshing
    {
      options := o;
      games, loading, refreshing := [], true, false;
    }

    /** `fetchGames`, resolved at time `now`. `participantsNull` stands for the
        "my games" participant query returning null, `queryError` for the games query
        returning an error, which keeps the games held before. */
    method FetchGames(store: Store, now: Millis, participantsNull: bool, queryError: bool)
      modifies this
      ensures games == if queryError then old(games)
                       else FeedGames(store.games, store.participants, now, options, participantsNull)
      ensures !loading && !refreshing
    {
      var myIds: seq<GameId> := [];
      if MyGamesActive(options) && !participantsNull {
        myIds := JoinedGameIds(store.participants, options.userId.value);
      }
      var data := SortByStart(Matching(store.games, now, options, myIds));
      if !queryError {
        games := data;
      }
      loading := false;
      refreshing := false;
    }

    /** `refresh`: raise the refreshing flag, then fetch; the fetch clears it again. */
    method Refresh(store: Store, now: Millis, participantsNull: bool, queryError: bool)
      modifies this
      ensures games == if queryError then old(games)
                       else FeedGames(store.games, store.participants, now, options, participantsNull)
      ensures !loading && !refreshing
    {
      refreshing := true;
      FetchGames(store, now, participantsNull, queryError);
    }
  }
}
