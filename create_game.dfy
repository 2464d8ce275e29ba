/** The create-game screen: the form's fields, the handlers that overwrite them,
    and `handleCreate`, which validates the form and writes the game and the
    host's participant row. */
module CreateGame {
  import opened Domain
  import opened Backend

  const MinPlayers: int := 2
  const MaxPlayers: int := 20
  const DefaultPlayers: int := 4

  /** The minutes offered by the time chips: now, 30 min, 1 hour, 2 hours. */
  const TimePresets: seq<int> := [0, 30, 60, 120]
  const DefaultPreset: int := 60

  // ----- The player stepper -----

  /** The "−" button: `Math.max(2, n - 1)`. */
  function StepDown(n: int): int {
    if n - 1 < MinPlayers then MinPlayers else n - 1
  }

  /** The "+" button: `Math.min(20, n + 1)`. */
  function StepUp(n: int): int {
    if n + 1 > MaxPlayers then MaxPlayers else n + 1
  }

  /** The count after a run of presses, `true` for "+" and `false` for "−". */
  function Stepped(n: int, presses: seq<bool>): int
    decreases presses
  {
    if presses == [] then n
    else Stepped(if presses[0] then StepUp(n) else StepDown(n), presses[1..])
  }

  /** From any count in range, and so from the default 4, every run of presses stays in [2, 20]. */
  lemma {:induction false} SteppedInRange(n: int, presses: seq<bool>)
    requires MinPlayers <= n <= MaxPlayers
    ensures MinPlayers <= Stepped(n, presses) <= MaxPlayers
    decreases presses
  {
    if presses != [] {
      SteppedInRange(if presses[0] then StepUp(n) else StepDown(n), presses[1..]);
    }
  }

  /** The stepper only moves by one and stops at the bounds. */
  lemma StepMovesByOne(n: int)
    requires MinPlayers <= n <= MaxPlayers
    ensures StepUp(n) == (if n == MaxPlayers then n else n + 1)
    ensures StepDown(n) == (if n == MinPlayers then n else n - 1)
  {
  }

  // ----- Notes: `notes.trim() || null` -----

  /** The characters JavaScript's `trim` removes: white space and line terminators. */
  predicate IsTrimmed(c: char) {
    || c == ' ' || c == '\t' || c == '\n' || c == '\r' || c == '\U{B}' || c == '\U{C}'
    || c == '\U{A0}' || c == '\U{1680}' || ('\U{2000}' <= c <= '\U{200A}')
    || c == '\U{2028}' || c == '\U{2029}' || c == '\U{202F}' || c == '\U{205F}'
    || c == '\U{3000}' || c == '\U{FEFF}'
  }

  /** Every character of `s` is white space. */
  predicate AllTrimmed(s: string) {
    forall k :: 0 <= k < |s| ==> IsTrimmed(s[k])
  }

  function TrimStart(s: string): (r: string)
    ensures |r| <= |s| && r == s[|s| - |r|..]
    ensures r == [] || !IsTrimmed(r[0])
    ensures AllTrimmed(s[..|s| - |r|])
  {
    if s == [] || !IsTrimmed(s[0]) then s
    else
      var r := TrimStart(s[1..]);
      assert s[..|s| - |r|] == [s[0]] + s[1..][..|s| - 1 - |r|];
      r
  }

  function TrimEnd(s: string): (r: string)
    ensures |r| <= |s| && r == s[..|r|]
    ensures r == [] || !IsTrimmed(r[|r| - 1])
    ensures AllTrimmed(s[|r|..])
  {
    if s == [] || !IsTrimmed(s[|s| - 1]) then s
    else
      var r := TrimEnd(s[..|s| - 1]);
      assert s[|r|..] == s[..|s| - 1][|r|..] + [s[|s| - 1]];
      r
  }

  /** `s.trim()`: a contiguous part of `s` that neither starts nor ends with white
      space, and everything cut off on either side is white space. */
  function Trim(s: string): (r: string)
    ensures exists i, j :: 0 <= i <= j <= |s| && r == s[i..j] && AllTrimmed(s[..i]) && AllTrimmed(s[j..])
    ensures r == [] || (!IsTrimmed(r[0]) && !IsTrimmed(r[|r| - 1]))
  {
    var t := TrimStart(s);
    var r := TrimEnd(t);
    var i := |s| - |t|;
    var j := i + |r|;
    assert r == s[i..j];
    assert s[j..] == t[|r|..];
    r
  }

  /** The notes column: the trimmed text, and null when nothing is left. */
  function StoredNotes(notes: string): (r: Option<string>)
    ensures r.Some? ==> r.value != [] && r.value == Trim(notes)
  {
    var t := Trim(notes);
    if t == "" then None else Some(t)
  }

  lemma AllTrimmedConcat(a: string, b: string)
    requires AllTrimmed(a) && AllTrimmed(b)
    ensures AllTrimmed(a + b)
  {
    forall k | 0 <= k < |a + b| ensures IsTrimmed((a + b)[k]) {
      if k >= |a| {
        assert (a + b)[k] == b[k - |a|];
      }
    }
  }

  /** Empty and white-space-only notes are stored as null, and only those. */
  lemma StoredNotesNull(notes: string)
    ensures StoredNotes(notes).None? <==> AllTrimmed(notes)
  {
    var t := Trim(notes);
    var i, j :| 0 <= i <= j <= |notes| && t == notes[i..j] && AllTrimmed(notes[..i]) && AllTrimmed(notes[j..]);
    if t != [] {
      assert notes[i] == t[0] && !IsTrimmed(notes[i]);
    } else {
      assert notes == notes[..i] + notes[j..];
      AllTrimmedConcat(notes[..i], notes[j..]);
    }
  }

  // ----- The form -----

  datatype CreateOutcome = NotSignedIn | NeedsLocation | InsertFailed | Posted(gameId: GameId)

  /** The form's inputs, one per piece of component state. */
  datatype FormFields = FormFields(
    sport: Sport, skillLevel: SkillLevel, locationId: Option<LocationId>, maxPlayers: int,
    startsAt: Millis, timePreset: Option<int>, timeFlexible: bool, courtFlexible: bool,
    hasEquipment: bool, extraEquipment: bool, notes: string)

  class GameForm {
    var sport: Sport
    var skillLevel: SkillLevel
    var locationId: Option<LocationId>
    var maxPlayers: int
    var startsAt: Millis
    var timePreset: Option<int>
    var timeFlexible: bool
    var courtFlexible: bool
    var hasEquipment: bool
    var extraEquipment: bool
    var notes: string
    var loading: bool

    /** The player count stays in range, and "any court" never carries a location. */
    ghost predicate Valid()
      reads this
    {
      && MinPlayers <= maxPlayers <= MaxPlayers
      && (courtFlexible ==> locationId == None)
    }

    /** The initial state: pickleball, any level, no court, 4 players, the 1-hour preset. */
    constructor (now: Millis)
      ensures Valid()
      ensures sport == Pickleball && skillLevel == AnyLevel && locationId == None
      ensures maxPlayers == DefaultPlayers
      ensures timePreset == Some(DefaultPreset) && startsAt == now + DefaultPreset * MinuteMs
      ensures !timeFlexible && !courtFlexible && !hasEquipment && !extraEquipment
      ensures notes == "" && !loading
    {
      sport, skillLevel, locationId := Pickleball, AnyLevel, None;
      maxPlayers := DefaultPlayers;
      startsAt, timePreset := now + 3600000, Some(60);
      timeFlexible, courtFlexible, hasEquipment, extraEquipment := false, false, false, false;
      notes, loading := "", false;
    }

    /** Everything the form holds except the spinner flag, as one record, so that each
        setter can say which fields it changes and that every other one stays. */
    function Fields(): FormFields
      reads this
    {
      FormFields(sport, skillLevel, locationId, maxPlayers, startsAt, timePreset,
                 timeFlexible, courtFlexible, hasEquipment, extraEquipment, notes)
    }

    method PressMinus()
      requires Valid()
      modifies this
      ensures Valid()
      ensures maxPlayers == StepDown(old(maxPlayers))
      ensures maxPlayers == (if old(maxPlayers) == MinPlayers then MinPlayers else old(maxPlayers) - 1)
      ensures Fields() == old(Fields()).(maxPlayers := maxPlayers) && loading == old(loading)
    {
      maxPlayers := StepDown(maxPlayers);
    }

    method PressPlus()
      requires Valid()
      modifies this
      ensures Valid()
      ensures maxPlayers == StepUp(old(maxPlayers))
      ensures maxPlayers == (if old(maxPlayers) == MaxPlayers then MaxPlayers else old(maxPlayers) + 1)
      ensures Fields() == old(Fields()).(maxPlayers := maxPlayers) && loading == old(loading)
    {
      maxPlayers := StepUp(maxPlayers);
    }

    /** A time chip: the start becomes `now` plus the preset's minutes, and the chip is marked. */
    method SelectTimePreset(minutes: int, now: Millis)
      requires Valid() && minutes in TimePresets
      modifies this
      ensures Valid()
      ensures now <= startsAt <= now + 120 * MinuteMs
      ensures Fields() == old(Fields()).(timePreset := Some(minutes), startsAt := now + minutes * MinuteMs)
      ensures loading == old(loading)
    {
      timePreset := Some(minutes);
      startsAt := now + minutes * MinuteMs;
    }

    /** The "Pick time" chip: no preset is marked; the start is kept until a picker sets it. */
    method PickCustomTime()
      requires Valid()
      modifies this
      ensures Valid()
      ensures Fields() == old(Fields()).(timePreset := None) && loading == old(loading)
    {
      timePreset := None;
    }

    /** The date and time pickers, which overwrite the start and leave the preset chip as it was. */
    method SetStartsAt(t: Millis)
      requires Valid()
      modifies this
      ensures Valid()
      ensures Fields() == old(Fields()).(startsAt := t) && loading == old(loading)
    {
      startsAt := t;
    }

    /** A sport card: choosing a sport resets both equipment switches. */
    method SelectSport(s: Sport)
      requires Valid()
      modifies this
      ensures Valid()
      ensures Fields() == old(Fields()).(sport := s, hasEquipment := false, extraEquipment := false)
      ensures loading == old(loading)
    {
      sport := s;
      hasEquipment := false;
      extraEquipment := false;
    }

    method SelectSkillLevel(level: SkillLevel)
      requires Valid()
      modifies this
      ensures Valid()
      ensures Fields() == old(Fields()).(skillLevel := level) && loading == old(loading)
    {
      skillLevel := level;
    }

    /** The court chips are shown only while "Any court works" is off. */
    method SelectLocation(id: LocationId)
      requires Valid() && !courtFlexible
      modifies this
      ensures Valid()
      ensures Fields() == old(Fields()).(locationId := Some(id)) && loading == old(loading)
    {
      locationId := Some(id);
    }

    /** "Any court works": turning it on clears the chosen court; turning it off keeps it. */
    method SetCourtFlexible(v: bool)
      requires Valid()
      modifies this
      ensures Valid()
      ensures Fields() == old(Fields()).(courtFlexible := v, locationId := if v then None else old(locationId))
      ensures loading == old(loading)
    {
      courtFlexible := v;
      if v {
        locationId := None;
      }
    }

    method SetTimeFlexible(v: bool)
      requires Valid()
      modifies this
      ensures Valid()
      ensures Fields() == old(Fields()).(timeFlexible := v) && loading == old(loading)
    {
      timeFlexible := v;
    }

    method SetHasEquipment(v: bool)
      requires Valid()
      modifies this
      ensures Valid()
      ensures Fields() == old(Fields()).(hasEquipment := v) && loading == old(loading)
    {
      hasEquipment := v;
    }

    method SetExtraEquipment(v: bool)
      requires Valid()
      modifies this
      ensures Valid()
      ensures Fields() == old(Fields()).(extraEquipment := v) && loading == old(loading)
    {
      extraEquipment := v;
    }

    method SetNotes(text: string)
      requires Valid()
      modifies this
      ensures Valid()
      ensures Fields() == old(Fields()).(notes := text) && loading == old(loading)
    {
      notes := text;
    }

    /** `handleCreate`'s guard on the location: a court is required unless any court works. */
    predicate HasPlace()
      reads this
    {
      courtFlexible || Present(locationId)
    }

    /** The row `handleCreate` inserts for host `host`; the id is the store's to assign,
        and the status is the column's default, open. */
    function Draft(host: UserId): Game
      reads this
    {
      Game(0, host, sport, skillLevel,
           if courtFlexible then None else locationId,
           startsAt, maxPlayers, Open, hasEquipment, extraEquipment, timeFlexible,
           StoredNotes(notes))
    }

    /** `handleCreate`. `insertFails` stands for the game insert returning an error;
        `hostRowFails` for the host's participant insert failing, whose error is ignored. */
    method HandleCreate(user: Option<UserId>, store: Store, insertFails: bool, hostRowFails: bool)
      returns (outcome: CreateOutcome)
      requires Valid() && store.Valid()
      modifies this, store
      ensures Valid() && store.Valid()
      ensures user.None? ==> outcome == NotSignedIn
      ensures user.Some? && !old(HasPlace()) ==> outcome == NeedsLocation
      ensures user.Some? && old(HasPlace()) && insertFails ==> outcome == InsertFailed
      ensures user.Some? && old(HasPlace()) && !insertFails ==>
                && outcome == Posted(old(store.nextId))
                && store.games == old(store.games) + [old(Draft(user.value)).(id := outcome.gameId)]
                && store.participants == old(store.participants)
                     + (if hostRowFails then [] else [Participant(outcome.gameId + 1, outcome.gameId, user.value, Joined)])
      ensures !outcome.Posted? ==> store.games == old(store.games) && store.participants == old(store.participants)
      ensures store.profiles == old(store.profiles) && store.locations == old(store.locations)
      ensures outcome == NotSignedIn || outcome == NeedsLocation ==> loading == old(loading)
      ensures outcome == InsertFailed || outcome.Posted? ==> !loading
      ensures Fields() == old(Fields())
    {
      if user.None? {
        return NotSignedIn;
      }
      if !courtFlexible && !Present(locationId) {
        return NeedsLocation;
      }
      loading := true;
      if insertFails {
        loading := false;
        return InsertFailed;
      }
      var id := store.InsertGame(Draft(user.value));
      loading := false;
      if !hostRowFails {
        var _ := store.InsertParticipant(id, user.value, Joined);
      }
      outcome := Posted(id);
    }
  }

  /** What a posted game row holds: the host, a player count in range, no location
      exactly when any court works (and otherwise the chosen court), and the notes trimmed. */
  lemma DraftFacts(f: GameForm, host: UserId)
    requires f.Valid() && f.HasPlace()
    ensures f.Draft(host).hostId == host && f.Draft(host).status == Open
    ensures MinPlayers <= f.Draft(host).maxPlayers <= MaxPlayers
    ensures f.Draft(host).locationId.None? <==> f.courtFlexible
    ensures !f.courtFlexible ==> f.Draft(host).locationId == f.locationId && Present(f.locationId)
    ensures f.Draft(host).notes.Some? ==> f.Draft(host).notes.value == Trim(f.notes) && f.Draft(host).notes.value != ""
    ensures f.Draft(host).notes.None? <==> AllTrimmed(f.notes)
  {
    StoredNotesNull(f.notes);
  }
}
