# pullup decision rules, modelled in Dafny

pullup is a mobile app for organising pickup pickleball and spikeball games on
top of a hosted Postgres store. Most of it is screens and query plumbing. This
project models the decision rules that sit inside that plumbing. The store's
tables are an in-memory `Store` of rows (`backend.dfy`), and timestamps are
integer milliseconds.

- `push_reminder.dfy` (module `PushReminder`) covers the scheduled edge function.
  - It selects the open or full games that start in `[now + 30 min, now + 35 min)`.
  - It builds one reminder per joined participant row whose profile has a push token.
  - It posts the batch once, and only when the batch is non-empty.
  - It reports `sent` or a 500 response.
  - Invocations five minutes apart have adjacent, disjoint windows.
- `roster.dfy` (module `Roster`) covers the join button.
  - Leave sets the pair's rows to `left`.
  - Join re-activates the row that `.single()` finds, or else inserts a new row.
  - The button choice is: hosting, game full, leave, or join.
  - Its central invariant is "at most one row per (game, user)", which leave always preserves; join preserves it when its `.single()` query succeeds, and a failed select gives the pair a second row (`Roster.SelectFailureDuplicates`).
  - The write path checks no capacity.
- `create_game.dfy` (module `CreateGame`) covers the create-game form.
  - The fields and their setters.
  - The 2..20 player stepper and the time presets.
  - The toggles that reset other fields.
  - `handleCreate`, with its location guard, trimmed notes and the host's own participant row.
- `feed.dfy` (module `Feed`) covers the games feed hook.
  - Which games are listed and in what order, including the "my games" rule.
  - How `games`, `loading` and `refreshing` change after a fetch.
- `profile_hook.dfy` (module `ProfileHook`) covers the profile hook's cache.
  - `fetchProfile`.
  - The spread merge of `updateProfile`.
- `avatar.dfy` (module `Avatar`) computes avatar initials.
- `sport_filter.dfy` (module `SportFilter`) covers the sport filter chips.
- `domain.dfy` (module `Domain`) holds the shared row types and enumerations: sport, skill level, game status and participant status.

## Modelling conventions

- Query results that come back as `null` are boolean or set parameters, and so are thrown exceptions: `gamesNull`, `participantsNull`, `queryFails`, `selectFails`, `writeFails`, `insertFails`, `hostRowFails`, `throws`. A thrown write is modelled as a write that did not happen.
- Generated ids come from the store's counter `nextId`, so every inserted row gets a fresh id.
- The JavaScript `!x` test on a string is `Domain.Present`: the value is not null and not empty.

## Behaviour the code does not have

- Join checks no capacity: a successful join by a user who is not joined raises the game's joined count by one, whatever its `max_players`. `Roster.JoinIgnoresCapacity` states this.
- Join and leave never write the game row, so its status never moves between open and full. `Roster.Join`, `Roster.Leave` and `Roster.JoinButton.HandlePress` state `store.games == old(store.games)`.
- The host takes a slot: `handleCreate` inserts a `joined` participant row for the host. `CreateGame.GameForm.HandleCreate` states this.
- Errors that a query returns instead of throwing are not looked at by the join button. A refused write leaves the table as it was and `onToggle` still runs; a failed `.single()` query takes the insert branch even when the pair has a row (`Roster.SelectFailureDuplicates`).
- There is no handling of concurrent joins, no ledger of sent reminders, and no retry of a failed push.

## Model

| member | source | states |
|---|---|---|
| Backend.Patched | src/hooks/useProfile.ts:28 | `{ ...prev, ...updates }`: every supplied field takes its new value, every other field and the id keep theirs |
| Backend.SetStatusForPair | src/components/game/JoinButton.tsx:31-35 | an update filtered by game and user changes the status of exactly the rows of that pair and nothing else |
| Backend.SetStatusForId | src/components/game/JoinButton.tsx:45-48 | an update filtered by id changes the status of exactly the rows with that id and nothing else |
| Backend.RowsForPair | src/components/game/JoinButton.tsx:37-41 | the pair query returns exactly the rows of the table that match game and user |
| Backend.SelectSingle | src/components/game/JoinButton.tsx:37-42 | `.single()` yields a row exactly when one row matches, and that row belongs to the pair |
| Backend.Store.UpdateStatusForPair | src/components/game/JoinButton.tsx:31-35 | the participant table becomes the pair-filtered update; ids stay distinct; other tables untouched |
| Backend.Store.UpdateStatusForId | src/components/game/JoinButton.tsx:45-48 | the participant table becomes the id-filtered update; other tables untouched |
| Backend.Store.InsertParticipant | src/components/game/JoinButton.tsx:50-52 | appends one row under a fresh id; ids stay distinct |
| Backend.Store.InsertGame | app/create-game.tsx:76-91 | appends the game row under a fresh id and returns that id |
| Backend.Store.UpdateProfile | src/hooks/useProfile.ts:23-26 | the user's profile row becomes the merge of the patch; a missing row is left missing |
| PushReminder.Upcoming | supabase/functions/push-reminder/index.ts:37-42 | the games query returns no more rows than the table holds |
| PushReminder.UpcomingMembership | supabase/functions/push-reminder/index.ts:37-42 | a game is returned exactly when it is in the table, open or full, and starts in `[now+30min, now+35min)` |
| PushReminder.JoinedRowsMembership | supabase/functions/push-reminder/index.ts:54-58 | the roster query returns exactly the game's rows with status joined |
| PushReminder.Recipients | supabase/functions/push-reminder/index.ts:62-65 | rows without a non-empty token are skipped; at most one token per row |
| PushReminder.ReminderText | supabase/functions/push-reminder/index.ts:67-75 | the message goes to the token and carries the game id; the title is "Pickleball in 30 min!" for pickleball and "Spikeball in 30 min!" otherwise; the body names the game's court, or says "TBD" when the game has no court or the court's row is missing |
| PushReminder.WindowsAdjacent | supabase/functions/push-reminder/index.ts:32-35 | the window of one invocation ends where the next one's (5 min later) begins, and the two never overlap |
| PushReminder.ExactlyOneTick | supabase/functions/push-reminder/index.ts:32-35 | on a 5-minute schedule, each start time lies in the window of exactly one invocation |
| PushReminder.GameMessagesAreReminders | supabase/functions/push-reminder/index.ts:62-76 | one game's messages are, in row order, exactly one reminder per row with a token |
| PushReminder.GameMessagesFrom | supabase/functions/push-reminder/index.ts:62-76 | every message of a game comes from a roster row that has a token |
| PushReminder.GameMessagesTo | supabase/functions/push-reminder/index.ts:62-76 | every roster row with a token gets its reminder |
| PushReminder.AllMessagesAppend | supabase/functions/push-reminder/index.ts:52-77 | the batch is ordered by game: the messages of a list of games are those of its parts in sequence |
| PushReminder.AllMessagesMembership | supabase/functions/push-reminder/index.ts:52-77 | a message is in the batch iff it is the reminder for some game whose roster query succeeded and a joined row of it with a token |
| PushReminder.BatchOnlySelected | supabase/functions/push-reminder/index.ts:37-75 | every message is about a game that is open or full and starts inside the window |
| PushReminder.ConsecutiveTicksNeverRepeatAGame | supabase/functions/push-reminder/index.ts:32-42 | with unchanged tables, invocations 5 minutes apart never remind about the same game |
| PushReminder.SendPushNotifications | supabase/functions/push-reminder/index.ts:20-28 | an empty batch is not posted; a non-empty one is posted once; it throws only when the endpoint is unreachable and the batch is non-empty |
| PushReminder.GameReminders | supabase/functions/push-reminder/index.ts:62-76 | the inner loop builds exactly that game's reminders |
| PushReminder.HandleInvocation | supabase/functions/push-reminder/index.ts:30-90 | the batch is posted at most once and only when non-empty; the reply is `sent` with the batch's size (0 when the games query fails or is empty), or 500 when the post throws |
| Roster.RowsForPairNone | src/components/game/JoinButton.tsx:37-41 | the pair query is empty exactly when no row matches |
| Roster.RowsForPairAtMostOne | src/components/game/JoinButton.tsx:37-42 | under the one-row-per-pair invariant the pair query returns at most one row |
| Roster.JoinExisting | src/components/game/JoinButton.tsx:37-48 | with a row present, join sets exactly that row to joined, by its id, and inserts nothing |
| Roster.JoinFresh | src/components/game/JoinButton.tsx:49-53 | with no row, join appends exactly one row (game, user, joined) |
| Roster.JoinWithDuplicatesInserts | src/components/game/JoinButton.tsx:37-53 | when a pair already has two rows, `.single()` finds none and join inserts yet another |
| Roster.LeaveKeepsInvariant | src/components/game/JoinButton.tsx:30-35 | leave preserves one row per pair and distinct ids |
| Roster.JoinKeepsInvariant | src/components/game/JoinButton.tsx:37-53 | join preserves one row per pair and distinct ids when the new id is fresh |
| Roster.LeaveEffect | src/components/game/JoinButton.tsx:30-35 | leave sets every row of the pair to left and leaves every other row unchanged |
| Roster.JoinMakesJoined | src/components/game/JoinButton.tsx:37-53 | after a join, the pair has a joined row |
| Roster.JoinLeaveJoin | src/components/game/JoinButton.tsx:30-53 | join, leave, join keeps one row per pair, adds no row in the second join, and ends joined |
| Roster.JoinIgnoresCapacity | src/components/game/JoinButton.tsx:27-64 | a join by a non-joined user always raises the game's joined count by one, whatever its capacity |
| Roster.SelectFailureDuplicates | src/components/game/JoinButton.tsx:37-53 | when the `.single()` query fails although the pair has a row, the insert gives the pair a second row |
| Roster.FreshGameKeepsInvariant | app/create-game.tsx:100-104 | a joined row for a game no row mentions yet, as the host's row of a new game, keeps one row per pair |
| Roster.Leave | src/components/game/JoinButton.tsx:30-35 | the participant table becomes the pair-filtered update to left, or stays as it was when the update returns an error; the game, profile and location tables and the id counter are untouched |
| Roster.Join | src/components/game/JoinButton.tsx:37-53 | the participant table becomes the re-activation or the insert; a failed select takes the insert; a write that returns an error leaves the table as it was; the game, profile and location tables are untouched, and the id counter moves only on an insert |
| Roster.ButtonFor | src/components/game/JoinButton.tsx:66-81 | a host always sees the disabled hosting button; the button is enabled iff not host and (joined or not full); an enabled button leaves iff joined; "Game Full" iff full and not joined |
| Roster.JoinButton.constructor | src/components/game/JoinButton.tsx:25 | the button starts not loading |
| Roster.JoinButton.HandlePress | src/components/game/JoinButton.tsx:27-64 | a joined user leaves, anyone else joins; a throw or a returned write error writes nothing, a failed select makes the join insert; `onToggle` runs iff nothing threw, returned errors included; the game, profile and location tables are never written, and the id counter moves only on an insert; loading ends false |
| Roster.JoinButton.Press | src/components/game/JoinButton.tsx:66-81 | a press on the hosting or full button changes nothing; a press on the leave or join button writes what `handlePress` writes, in every error case, and runs `onToggle` unless it threw; the game, profile and location tables are untouched |
| CreateGame.SteppedInRange | app/create-game.tsx:164-174 | from any count in 2..20, so from the default 4, any run of −/+ presses stays in 2..20 |
| CreateGame.StepMovesByOne | app/create-game.tsx:164-174 | each press moves the count by one, stopping at 2 and 20 |
| CreateGame.TrimStart | app/create-game.tsx:88 | removes exactly the leading white space |
| CreateGame.TrimEnd | app/create-game.tsx:88 | removes exactly the trailing white space |
| CreateGame.Trim | app/create-game.tsx:88 | the result is a slice of the input cut only at white space, with no white space at either end |
| CreateGame.StoredNotes | app/create-game.tsx:88 | the stored note is non-empty and the trimmed text |
| CreateGame.StoredNotesNull | app/create-game.tsx:88 | the note is stored as null iff it is empty or all white space |
| CreateGame.GameForm.constructor | app/create-game.tsx:42-55 | the form starts on pickleball, any level, no court, 4 players, the 1-hour preset, all switches off, empty notes |
| CreateGame.GameForm.PressMinus | app/create-game.tsx:164 | the count drops by one but not below 2; every other field stays |
| CreateGame.GameForm.PressPlus | app/create-game.tsx:174 | the count rises by one but not above 20; every other field stays |
| CreateGame.GameForm.SelectTimePreset | app/create-game.tsx:57-62 | the preset is recorded and the start is now plus its minutes, within the next two hours; every other field stays |
| CreateGame.GameForm.PickCustomTime | app/create-game.tsx:218-221 | no preset is marked; the start and every other field stay |
| CreateGame.GameForm.SetStartsAt | app/create-game.tsx:265-285 | the pickers overwrite the start; the preset chip and every other field stay |
| CreateGame.GameForm.SelectSport | app/create-game.tsx:132-136 | changing sport resets both equipment switches; every other field stays |
| CreateGame.GameForm.SelectSkillLevel | app/create-game.tsx:189 | sets the skill level; every other field stays |
| CreateGame.GameForm.SelectLocation | app/create-game.tsx:305-312 | a court can be chosen only while "any court" is off; every other field stays |
| CreateGame.GameForm.SetCourtFlexible | app/create-game.tsx:331-334 | turning "any court" on clears the chosen court, turning it off keeps it; every other field stays |
| CreateGame.GameForm.SetTimeFlexible | app/create-game.tsx:297 | sets the flexible-time switch; every other field stays |
| CreateGame.GameForm.SetHasEquipment | app/create-game.tsx:350 | sets the equipment switch; every other field stays |
| CreateGame.GameForm.SetExtraEquipment | app/create-game.tsx:366 | sets the extra-equipment switch; every other field stays |
| CreateGame.GameForm.SetNotes | app/create-game.tsx:380 | sets the notes text; every other field stays |
| CreateGame.GameForm.HandleCreate | app/create-game.tsx:64-113 | no user or no place: nothing written; insert error: no game and no participant row; success: the game row, then the host's joined row under the new game's id; loading ends false after an insert attempt; no form field changes |
| CreateGame.DraftFacts | app/create-game.tsx:76-91 | the inserted row has the host, a count in 2..20, a null location iff any court works (else the chosen court), and the trimmed notes or null |
| Feed.JoinedGameIdsMembership | src/hooks/useGames.ts:31-37 | the id list holds exactly the games where the user has a joined row |
| Feed.Matching | src/hooks/useGames.ts:18-42 | keeps exactly the table's games that pass the filters, each no more often than in the table |
| Feed.InsertByStart | src/hooks/useGames.ts:23 | inserting into a start-ordered list keeps it ordered and adds exactly that game |
| Feed.SortByStart | src/hooks/useGames.ts:23 | the result is ordered by start and a permutation of the input |
| Feed.MatchingCounts | src/hooks/useGames.ts:18-42 | the filter keeps every copy of a game that passes it and no copy of one that does not |
| Feed.FeedIsSortedSelection | src/hooks/useGames.ts:17-44 | the feed is ordered by start and holds each game that passes the filters exactly as often as the table does, and nothing else |
| Feed.FeedGameFacts | src/hooks/useGames.ts:21-27 | every listed game is open or full, has not started, and has the filtered sport |
| Feed.MyGamesRule | src/hooks/useGames.ts:29-42 | on "my games" with a user id, a live future game is listed iff the user hosts it or has a joined row for it |
| Feed.MyGamesWithoutRows | src/hooks/useGames.ts:37-41 | when the participant query returns null only the host test applies |
| Feed.MyOnlyWithoutUser | src/hooks/useGames.ts:29 | "my games" without a user id lists the same games as the full feed |
| Feed.GamesFeed.constructor | src/hooks/useGames.ts:13-15 | the hook starts with no games, loading, not refreshing |
| Feed.GamesFeed.FetchGames | src/hooks/useGames.ts:17-50 | on success the games become the feed; on error they are kept; loading and refreshing end false |
| Feed.GamesFeed.Refresh | src/hooks/useGames.ts:71-74 | a refresh refetches and ends with the flags cleared |
| ProfileHook.MergedCache | src/hooks/useProfile.ts:28 | a null cache stays null; a cached profile keeps its id, and an empty update leaves it as it was |
| ProfileHook.MergeIdempotent | src/hooks/useProfile.ts:28 | applying the same update twice equals applying it once |
| ProfileHook.MergeLaterWins | src/hooks/useProfile.ts:28 | merging two updates in turn is merging one update that takes each field from the later update when it supplies it, else from the earlier one |
| ProfileHook.ProfileCache.constructor | src/hooks/useProfile.ts:6-7 | the cache starts empty and loading |
| ProfileHook.ProfileCache.FetchProfile | src/hooks/useProfile.ts:9-18 | without a user nothing changes; otherwise the profile is replaced only when the row is returned, and loading ends false |
| ProfileHook.ProfileCache.UpdateProfile | src/hooks/useProfile.ts:20-33 | without a user nothing is written; on error the cache is unchanged; on success the row and the cache get the same merge, so a cache in step with the row stays in step; the write's error is returned; the other tables and the id counter are untouched |
| Avatar.Split | src/components/ui/Avatar.tsx:13 | splitting yields at least one piece |
| Avatar.UpperAll | src/components/ui/Avatar.tsx:16 | upper-casing keeps the length and maps each character by the ASCII `Upper` |
| Avatar.Initials | src/components/ui/Avatar.tsx:11-18 | a null or empty name gives "?"; any other name gives at most two characters |
| Avatar.HeadsOfSplit | src/components/ui/Avatar.tsx:13-15 | the heads of the split words are exactly the characters that start a word, in order |
| Avatar.InitialsAreWordStarts | src/components/ui/Avatar.tsx:11-18 | the initials are the first two upper-cased word starts |
| Avatar.WordStartsNoSpace | src/components/ui/Avatar.tsx:13-15 | word starts are never spaces |
| Avatar.SpacesAddNothing | src/components/ui/Avatar.tsx:13-15 | leading and repeated spaces add no initial |
| Avatar.SingleWord | src/components/ui/Avatar.tsx:12-17 | a one-word name gives exactly its upper-cased first letter |
| Avatar.BlankNameHasNoInitials | src/components/ui/Avatar.tsx:11-18 | a name of spaces only has no word starts, so its initials are empty |
| SportFilter.Next | src/components/feed/SportFilterChips.tsx:20-30 | "All Sports" clears the filter; a sport chip clears it iff that sport was selected, else selects that sport |
| SportFilter.ExactlyOneMarked | src/components/feed/SportFilterChips.tsx:22-29 | whatever the filter holds, exactly one chip is marked selected |
| SportFilter.PressMarks | src/components/feed/SportFilterChips.tsx:20-30 | after a press the pressed chip is marked, unless it was a marked sport chip, which marks "All Sports" |
| SportFilter.PressTwice | src/components/feed/SportFilterChips.tsx:30 | pressing a sport twice returns to the start when that was null or that sport, else ends at null |

## Left out

- The hosted client and the network (`createClient`, `.from(...)`, the `fetch` to the push service) are left out. Tables are in-memory sequences and maps, and the push service is a `PushEndpoint` that records each posted batch.
- Realtime channels and their re-fetch callbacks are left out. They are asynchronous event delivery.
- Await interleavings are left out. Each handler runs to completion as one step, so interim states are not observable: `loading` during a write, `refreshing` between `refresh` and the fetch's end.
- Feed.GamesFeed.Refresh: states only the state after the fetch. `refreshing` is raised at the start, but no observer can see it in a sequential model.
- PushReminder.HandleInvocation: a non-success HTTP status from the push service is not inspected, as in the code. Only the post throwing (`unreachable`) yields 500, and thrown store queries are not modelled; failed queries are null results (`QueryFaults`).
- PushReminder.Upcoming: its own contract is a length bound. What it returns is stated by `UpcomingMembership`.
- The `starts_at` comparisons are done on ISO strings in the queries; the model compares integer milliseconds.
- Date pickers and presets mutate a local `Date`. Across a daylight-saving change that is not exact; the model adds exact minutes.
- Avatar.UpperAll: upper-cases ASCII letters only (through `Avatar.Upper`). JavaScript's `toUpperCase` maps all of Unicode and can lengthen a string ("ß" becomes "SS"), so "keeps the length" holds for the model only; `n[0]` takes a UTF-16 code unit, and the model takes a whole character.
- ProfileHook.ProfileCache.UpdateProfile: the patch has no `id` field. `Partial<Profile>` allows one, and writing it would move the row.
- Postgres gives no order for rows with equal `starts_at`. The model keeps table order among them. The reminder function's games query and roster query (`supabase/functions/push-reminder/index.ts:37-42`, `54-58`) have no `.order()` at all; the model takes them in table order.
- CreateGame.GameForm.Draft: the inserted row's status is not set by the code. The model takes the column default to be open.
- CreateGame.GameForm.HandleCreate: `copyGameLink`, the alerts and `router.back()` are left out. An insert that succeeds but returns no row is treated as success.
- Haptics, styling, `ScaleSelector` (floating-point fill), `usePushToken` (device and permission calls), and the date and clipboard helpers are left out.
