/** The sport filter chips above the feed: "All Sports" plus one chip per sport,
    driving the single-valued filter the feed hook reads. */
module SportFilter {
  import opened Domain

  datatype Chip = AllSports | SportChip(sport: Sport)

  /** The chips in display order. */
  const Chips: seq<Chip> := [AllSports, SportChip(Pickleball), SportChip(Spikeball)]

  /** A chip's `selected` flag. */
  predicate IsMarked(selected: Option<Sport>, c: Chip) {
    match c
    case AllSports => selected == None
    case SportChip(s) => selected == Some(s)
  }

  /** The value `onSelect` receives when `pressed` is tapped. */
  function Next(selected: Option<Sport>, pressed: Chip): (r: Option<Sport>)
    ensures pressed == AllSports ==> r == None
    ensures pressed.SportChip? ==> (r == None <==> IsMarked(selected, pressed))
    ensures pressed.SportChip? && r.Some? ==> r.value == pressed.sport
  {
    match pressed
    case AllSports => None
    case SportChip(s) => if selected == Some(s) then None else Some(s)
  }

  function MarkedCount(selected: Option<Sport>, cs: seq<Chip>): nat {
    if cs == [] then 0 else (if IsMarked(selected, cs[0]) then 1 else 0) + MarkedCount(selected, cs[1..])
  }

  /** Whatever the filter holds, exactly one chip is marked. */
  lemma ExactlyOneMarked(selected: Option<Sport>)
    ensures MarkedCount(selected, Chips) == 1
  {
    var c2 := [SportChip(Spikeball)];
    var c1 := [SportChip(Pickleball)] + c2;
    assert Chips == [AllSports] + c1;
    assert Chips[0] == AllSports && Chips[1..] == c1;
    assert c1[0] == SportChip(Pickleball) && c1[1..] == c2;
    assert c2[0] == SportChip(Spikeball) && c2[1..] == [];
    assert MarkedCount(selected, Chips) == MarkedCount(selected, [AllSports]) + MarkedCount(selected, c1)
      == (if selected == None then 1 else 0) + MarkedCount(selected, c1);
    assert MarkedCount(selected, c1)
      == (if selected == Some(Pickleball) then 1 else 0) + (if selected == Some(Spikeball) then 1 else 0);
    assert selected == None || selected == Some(Pickleball) || selected == Some(Spikeball) by {
      if selected.Some? {
        assert selected.value.Pickleball? || selected.value.Spikeball?;
      }
    }
  }

  /** After any press, the marked chip is the pressed one, unless a marked sport chip
      was pressed, which marks "All Sports". */
  lemma PressMarks(selected: Option<Sport>, pressed: Chip)
    ensures IsMarked(Next(selected, pressed), pressed) <==> !(pressed.SportChip? && IsMarked(selected, pressed))
    ensures pressed.SportChip? && IsMarked(selected, pressed) ==> IsMarked(Next(selected, pressed), AllSports)
  {
  }

  /** Pressing the same sport twice: back where it started when the filter was empty or
      that sport, and empty otherwise. */
  lemma PressTwice(selected: Option<Sport>, s: Sport)
    ensures Next(Next(selected, SportChip(s)), SportChip(s))
         == if selected == None || selected == Some(s) then selected else None
  {
  }
}
