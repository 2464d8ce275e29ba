/** The join button of a game screen: which button a user sees, and what a press
    writes to the participant table. The write path checks no capacity and never
    touches the game row; fullness only disables the button. */
module Roster {
  import opened Domain
  import opened Backend

  /** The invariant the write path relies on: at most one row per (game, user) pair. */
  predicate OneRowPerPair(ps: seq<Participant>) {
    forall i, j :: 0 <= i < j < |ps| ==> !(ps[i].gameId == ps[j].gameId && ps[i].userId == ps[j].userId)
  }

  predicate IsPair(p: Participant, g: GameId, u: UserId) {
    p.gameId == g && p.userId == u
  }

  /** Every row id is below `n`, so `n` is a fresh id. */
  predicate IdsBelow(ps: seq<Participant>, n: nat) {
    forall i :: 0 <= i < |ps| ==> ps[i].id < n
  }

  /** The table after a leave: every row of the pair set to left. */
  function LeaveRows(ps: seq<Participant>, g: GameId, u: UserId): seq<Participant> {
    SetStatusForPair(ps, g, u, Left)
  }

  /** The table after the insert of a joined row for the pair under `newId`. */
  function InsertJoined(ps: seq<Participant>, g: GameId, u: UserId, newId: RowId): seq<Participant> {
    ps + [Participant(newId, g, u, Joined)]
  }

  /** The table after a join: the row `.single()` finds is set to joined by its id;
      when it finds none (no row, or several), a new row is inserted under `newId`. */
  function JoinRows(ps: seq<Participant>, g: GameId, u: UserId, newId: RowId): seq<Participant> {
    var existing := SelectSingle(ps, g, u);
    if existing.Some? then SetStatusForId(ps, existing.value.id, Joined)
    else InsertJoined(ps, g, u, newId)
  }

  /** The number of joined rows of game `g`. */
  function JoinedCount(ps: seq<Participant>, g: GameId): nat {
    if ps == [] then 0
    else (if ps[0].gameId == g && ps[0].status == Joined then 1 else 0) + JoinedCount(ps[1..], g)
  }

  // ----- Lemmas about the table -----

  lemma {:induction false} RowsForPairNone(ps: seq<Participant>, g: GameId, u: UserId)
    ensures RowsForPair(ps, g, u) == [] <==> forall i :: 0 <= i < |ps| ==> !IsPair(ps[i], g, u)
  {
    if RowsForPair(ps, g, u) != [] {
      var p := RowsForPair(ps, g, u)[0];
      assert p in RowsForPair(ps, g, u);
    }
  }

  lemma {:induction false} RowsForPairAtMostOne(ps: seq<Participant>, g: GameId, u: UserId)
    requires OneRowPerPair(ps)
    ensures |RowsForPair(ps, g, u)| <= 1
  {
    if ps != [] {
      RowsForPairAtMostOne(ps[1..], g, u);
      if IsPair(ps[0], g, u) {
        forall i | 0 <= i < |ps[1..]| ensures !IsPair(ps[1..][i], g, u) {
          assert ps[1..][i] == ps[i + 1];
        }
        RowsForPairNone(ps[1..], g, u);
      }
    }
  }

  /** With a row for the pair already present, join sets exactly that row to joined
      (found by its id) and inserts nothing. */
  lemma JoinExisting(ps: seq<Participant>, g: GameId, u: UserId, newId: RowId, k: nat)
    requires OneRowPerPair(ps) && DistinctRowIds(ps)
    requires k < |ps| && IsPair(ps[k], g, u)
    ensures JoinRows(ps, g, u, newId) == ps[k := ps[k].(status := Joined)]
  {
    RowsForPairAtMostOne(ps, g, u);
    assert ps[k] in RowsForPair(ps, g, u);
    var row := SelectSingle(ps, g, u).value;
    var j :| 0 <= j < |ps| && ps[j] == row;
    assert j == k;
  }

  /** With no row for the pair, join inserts exactly one row (g, u, joined). */
  lemma JoinFresh(ps: seq<Participant>, g: GameId, u: UserId, newId: RowId)
    requires forall i :: 0 <= i < |ps| ==> !IsPair(ps[i], g, u)
    ensures JoinRows(ps, g, u, newId) == ps + [Participant(newId, g, u, Joined)]
  {
    RowsForPairNone(ps, g, u);
  }

  /** Without the invariant, a pair with several rows gets yet another row on join:
      `.single()` finds no row, so the insert branch runs. */
  lemma JoinWithDuplicatesInserts(ps: seq<Participant>, g: GameId, u: UserId, newId: RowId, i: nat, j: nat)
    requires i < j < |ps| && IsPair(ps[i], g, u) && IsPair(ps[j], g, u)
    ensures JoinRows(ps, g, u, newId) == ps + [Participant(newId, g, u, Joined)]
  {
    RowsForPairCountsPositions(ps, g, u, i, j);
  }

  lemma {:induction false} RowsForPairCountsPositions(ps: seq<Participant>, g: GameId, u: UserId, i: nat, j: nat)
    requires i < j < |ps| && IsPair(ps[i], g, u) && IsPair(ps[j], g, u)
    ensures |RowsForPair(ps, g, u)| >= 2
  {
    if i == 0 {
      assert ps[1..][j - 1] == ps[j];
      assert ps[j] in RowsForPair(ps[1..], g, u);
    } else {
      assert ps[1..][i - 1] == ps[i] && ps[1..][j - 1] == ps[j];
      RowsForPairCountsPositions(ps[1..], g, u, i - 1, j - 1);
    }
  }

  /** Leave preserves the invariant and the distinct ids. */
  lemma LeaveKeepsInvariant(ps: seq<Participant>, g: GameId, u: UserId)
    requires OneRowPerPair(ps) && DistinctRowIds(ps)
    ensures OneRowPerPair(LeaveRows(ps, g, u)) && DistinctRowIds(LeaveRows(ps, g, u))
  {
  }

  /** Join preserves the invariant and the distinct ids when `newId` is fresh. */
  lemma JoinKeepsInvariant(ps: seq<Participant>, g: GameId, u: UserId, newId: RowId)
    requires OneRowPerPair(ps) && DistinctRowIds(ps) && IdsBelow(ps, newId)
    ensures OneRowPerPair(JoinRows(ps, g, u, newId)) && DistinctRowIds(JoinRows(ps, g, u, newId))
    ensures IdsBelow(JoinRows(ps, g, u, newId), newId + 1)
  {
    if k :| 0 <= k < |ps| && IsPair(ps[k], g, u) {
      JoinExisting(ps, g, u, newId, k);
    } else {
      JoinFresh(ps, g, u, newId);
    }
  }

  /** After a leave no row of the pair is joined; every other row is unchanged. */
  lemma LeaveEffect(ps: seq<Participant>, g: GameId, u: UserId)
    ensures |LeaveRows(ps, g, u)| == |ps|
    ensures forall i :: 0 <= i < |ps| && IsPair(ps[i], g, u) ==> LeaveRows(ps, g, u)[i] == ps[i].(status := Left)
    ensures forall i :: 0 <= i < |ps| && !IsPair(ps[i], g, u) ==> LeaveRows(ps, g, u)[i] == ps[i]
  {
  }

  /** After a join the pair has a joined row. */
  lemma JoinMakesJoined(ps: seq<Participant>, g: GameId, u: UserId, newId: RowId)
    requires OneRowPerPair(ps) && DistinctRowIds(ps)
    ensures exists i :: 0 <= i < |JoinRows(ps, g, u, newId)| && IsPair(JoinRows(ps, g, u, newId)[i], g, u)
                        && JoinRows(ps, g, u, newId)[i].status == Joined
  {
    var r := JoinRows(ps, g, u, newId);
    if k :| 0 <= k < |ps| && IsPair(ps[k], g, u) {
      JoinExisting(ps, g, u, newId, k);
      assert IsPair(r[k], g, u) && r[k].status == Joined;
    } else {
      JoinFresh(ps, g, u, newId);
      assert IsPair(r[|ps|], g, u) && r[|ps|].status == Joined;
    }
  }

  /** Join, leave, join again: the pair ends with exactly one row, and it is joined;
      the second join inserts nothing. */
  lemma JoinLeaveJoin(ps: seq<Participant>, g: GameId, u: UserId, id1: RowId, id2: RowId)
    requires OneRowPerPair(ps) && DistinctRowIds(ps) && IdsBelow(ps, id1) && id1 < id2
    ensures var ps3 := JoinRows(LeaveRows(JoinRows(ps, g, u, id1), g, u), g, u, id2);
            && OneRowPerPair(ps3)
            && |ps3| == |JoinRows(ps, g, u, id1)|
            && exists i :: 0 <= i < |ps3| && IsPair(ps3[i], g, u) && ps3[i].status == Joined
  {
    var ps1 := JoinRows(ps, g, u, id1);
    JoinKeepsInvariant(ps, g, u, id1);
    JoinMakesJoined(ps, g, u, id1);
    var k :| 0 <= k < |ps1| && IsPair(ps1[k], g, u) && ps1[k].status == Joined;
    var ps2 := LeaveRows(ps1, g, u);
    LeaveKeepsInvariant(ps1, g, u);
    assert IsPair(ps2[k], g, u);
    JoinExisting(ps2, g, u, id2, k);
    JoinKeepsInvariant(ps2, g, u, id2);
    JoinMakesJoined(ps2, g, u, id2);
  }

  lemma {:induction false} JoinedCountUpdate(ps: seq<Participant>, g: GameId, k: nat, x: Participant)
    requires k < |ps|
    ensures JoinedCount(ps[k := x], g)
         == JoinedCount(ps, g) - (if ps[k].gameId == g && ps[k].status == Joined then 1 else 0)
                                + (if x.gameId == g && x.status == Joined then 1 else 0)
  {
    if k == 0 {
      assert ps[k := x][1..] == ps[1..];
    } else {
      assert ps[k := x][1..] == ps[1..][k - 1 := x];
      JoinedCountUpdate(ps[1..], g, k - 1, x);
    }
  }

  lemma {:induction false} JoinedCountAppend(ps: seq<Participant>, g: GameId, x: Participant)
    ensures JoinedCount(ps + [x], g) == JoinedCount(ps, g) + (if x.gameId == g && x.status == Joined then 1 else 0)
  {
    if ps == [] {
      assert ps + [x] == [x];
    } else {
      assert (ps + [x])[1..] == ps[1..] + [x];
      JoinedCountAppend(ps[1..], g, x);
    }
  }

  /** Join checks no capacity: when the user is not joined, the game's joined count
      always grows by one, whatever the game's max_players is. */
  lemma JoinIgnoresCapacity(ps: seq<Participant>, g: GameId, u: UserId, newId: RowId)
    requires OneRowPerPair(ps) && DistinctRowIds(ps)
    requires forall i :: 0 <= i < |ps| && IsPair(ps[i], g, u) ==> ps[i].status != Joined
    ensures JoinedCount(JoinRows(ps, g, u, newId), g) == JoinedCount(ps, g) + 1
  {
    if k :| 0 <= k < |ps| && IsPair(ps[k], g, u) {
      JoinExisting(ps, g, u, newId, k);
      JoinedCountUpdate(ps, g, k, ps[k].(status := Joined));
    } else {
      JoinFresh(ps, g, u, newId);
      JoinedCountAppend(ps, g, Participant(newId, g, u, Joined));
    }
  }

  /** When the `.single()` query fails although the pair has a row, the join inserts a
      second row for the pair: the table no longer has one row per pair. */
  lemma SelectFailureDuplicates(ps: seq<Participant>, g: GameId, u: UserId, newId: RowId, k: nat)
    requires k < |ps| && IsPair(ps[k], g, u)
    ensures !OneRowPerPair(InsertJoined(ps, g, u, newId))
  {
    var r := InsertJoined(ps, g, u, newId);
    assert r[k] == ps[k] && r[|ps|] == Participant(newId, g, u, Joined);
  }

  /** A joined row for a game no row mentions yet (the host's row of a new game) keeps
      one row per pair. */
  lemma {:induction false} FreshGameKeepsInvariant(ps: seq<Participant>, g: GameId, u: UserId, newId: RowId)
    requires OneRowPerPair(ps)
    requires forall i :: 0 <= i < |ps| ==> ps[i].gameId != g
    ensures OneRowPerPair(InsertJoined(ps, g, u, newId))
  {
    var r := InsertJoined(ps, g, u, newId);
    forall i, j | 0 <= i < j < |r|
      ensures !(r[i].gameId == r[j].gameId && r[i].userId == r[j].userId)
    {
      if j == |ps| {
        assert r[i] == ps[i] && r[j].gameId == g;
      } else {
        assert r[i] == ps[i] && r[j] == ps[j];
      }
    }
  }

  // ----- The writes -----

  /** The leave branch of `handlePress`. `writeFails` stands for the update returning
      an error, which the code does not look at: the table is then unchanged. */
  method Leave(store: Store, g: GameId, u: UserId, writeFails: bool)
    requires store.Valid()
    modifies store
    ensures store.Valid()
    ensures store.participants == if writeFails then old(store.participants) else LeaveRows(old(store.participants), g, u)
    ensures store.games == old(store.games) && store.profiles == old(store.profiles)
    ensures store.locations == old(store.locations) && store.nextId == old(store.nextId)
  {
    if !writeFails {
      store.UpdateStatusForPair(g, u, Left);
    }
  }

  /** The join branch of `handlePress`. `selectFails` stands for the `.single()` query
      returning an error, so that `existing` is null and the code inserts; `writeFails`
      for the update or insert returning an error, which the code does not look at. */
  method Join(store: Store, g: GameId, u: UserId, selectFails: bool, writeFails: bool)
    requires store.Valid()
    modifies store
    ensures store.Valid()
    ensures store.participants
         == if writeFails then old(store.participants)
            else if selectFails then InsertJoined(old(store.participants), g, u, old(store.nextId))
            else JoinRows(old(store.participants), g, u, old(store.nextId))
    ensures store.games == old(store.games) && store.profiles == old(store.profiles)
    ensures store.locations == old(store.locations)
    ensures store.nextId
         == if !writeFails && (selectFails || SelectSingle(old(store.participants), g, u).None?)
            then old(store.nextId) + 1 else old(store.nextId)
  {
    var existing := if selectFails then None else SelectSingle(store.participants, g, u);
    if writeFails {
      return;
    }
    if existing.Some? {
      store.UpdateStatusForId(existing.value.id, Joined);
    } else {
      var _ := store.InsertParticipant(g, u, Joined);
    }
  }

  // ----- The button -----

  datatype ButtonView = Hosting | GameFull | LeaveGame | JoinGame

  /** Only the leave and join buttons are enabled; the other two have a no-op press. */
  predicate Enabled(b: ButtonView) {
    b == LeaveGame || b == JoinGame
  }

  function ButtonFor(isHost: bool, hasJoined: bool, isFull: bool): (r: ButtonView)
    ensures isHost ==> r == Hosting
    ensures Enabled(r) <==> !isHost && (hasJoined || !isFull)
    ensures Enabled(r) ==> (r == LeaveGame <==> hasJoined)
    ensures r == GameFull <==> !isHost && isFull && !hasJoined
  {
    if isHost then Hosting
    else if isFull && !hasJoined then GameFull
    else if hasJoined then LeaveGame
    else JoinGame
  }

  class JoinButton {
    const gameId: GameId
    const userId: UserId
    const hasJoined: bool
    const isFull: bool
    const isHost: bool
    var loading: bool
    /** How many times `onToggle` has run. */
    var toggles: nat

    constructor (g: GameId, u: UserId, joined: bool, full: bool, host: bool)
      ensures gameId == g && userId == u && hasJoined == joined && isFull == full && isHost == host
      ensures !loading && toggles == 0
    {
      gameId, userId, hasJoined, isFull, isHost := g, u, joined, full, host;
      loading, toggles := false, 0;
    }

    /** `handlePress`. `throws` stands for the awaited call throwing; the write then
        has no effect and `onToggle` does not run. `selectFails` and `writeFails` stand
        for a query that returns an error instead of throwing (see `Join` and `Leave`):
        the code does not look at those errors, so `onToggle` still runs. */
    method HandlePress(store: Store, throws: bool, selectFails: bool, writeFails: bool)
      requires store.Valid()
      modifies this, store
      ensures store.Valid()
      ensures store.participants
           == if throws || writeFails then old(store.participants)
              else if hasJoined then LeaveRows(old(store.participants), gameId, userId)
              else if selectFails then InsertJoined(old(store.participants), gameId, userId, old(store.nextId))
              else JoinRows(old(store.participants), gameId, userId, old(store.nextId))
      ensures store.games == old(store.games) && store.profiles == old(store.profiles)
      ensures store.locations == old(store.locations)
      ensures store.nextId
           == if !throws && !writeFails && !hasJoined
                 && (selectFails || SelectSingle(old(store.participants), gameId, userId).None?)
              then old(store.nextId) + 1 else old(store.nextId)
      ensures !loading
      ensures toggles == old(toggles) + (if throws then 0 else 1)
    {
      loading := true;
      if !throws {
        if hasJoined {
          Leave(store, gameId, userId, writeFails);
        } else {
          Join(store, gameId, userId, selectFails, writeFails);
        }
        toggles := toggles + 1;
      }
      loading := false;
    }

    /** A press on the rendered button: the disabled ones do nothing. */
    method Press(store: Store, throws: bool, selectFails: bool, writeFails: bool)
      requires store.Valid()
      modifies this, store
      ensures store.Valid()
      ensures !Enabled(ButtonFor(isHost, hasJoined, isFull)) ==>
                store.participants == old(store.participants) && toggles == old(toggles) && loading == old(loading)
      ensures Enabled(ButtonFor(isHost, hasJoined, isFull)) ==>
                (store.participants
                 == if throws || writeFails then old(store.participants)
                    else if hasJoined then LeaveRows(old(store.participants), gameId, userId)
                    else if selectFails then InsertJoined(old(store.participants), gameId, userId, old(store.nextId))
                    else JoinRows(old(store.participants), gameId, userId, old(store.nextId)))
      ensures Enabled(ButtonFor(isHost, hasJoined, isFull)) ==> !loading && toggles == old(toggles) + (if throws then 0 else 1)
      ensures store.games == old(store.games) && store.profiles == old(store.profiles)
      ensures store.locations == old(store.locations)
    {
      if Enabled(ButtonFor(isHost, hasJoined, isFull)) {
        HandlePress(store, throws, selectFails, writeFails);
      }
    }
  }
}
