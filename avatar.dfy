/** Avatar initials: the first letters of the space-separated words of a name,
    upper-cased and cut to two characters, or "?" when there is no name. */
module Avatar {
  import opened Domain

  /** `s.split(" ")`: the pieces between single spaces, empty pieces included,
      so a string with k spaces has k + 1 pieces. */
  function Split(s: string): (r: seq<string>)
    ensures |r| >= 1
  {
    if s == [] then [[]]
    else if s[0] == ' ' then [[]] + Split(s[1..])
    else
      var rest := Split(s[1..]);
      [[s[0]] + rest[0]] + rest[1..]
  }

  /** `.map((n) => n[0]).join("")`: each word's first character; an empty word gives
      `undefined`, which `join` writes as nothing. */
  function Heads(words: seq<string>): string {
    if words == [] then []
    else (if words[0] == [] then [] else [words[0][0]]) + Heads(words[1..])
  }

  /** Upper case of the ASCII letters; other characters are kept. */
  function Upper(c: char): char {
    if 'a' <= c <= 'z' then (c as int - 'a' as int + 'A' as int) as char else c
  }

  function UpperAll(s: string): (r: string)
    ensures |r| == |s| && forall i :: 0 <= i < |s| ==> r[i] == Upper(s[i])
  {
    if s == [] then [] else [Upper(s[0])] + UpperAll(s[1..])
  }

  /** `.slice(0, 2)`. */
  function FirstTwo(s: string): string {
    if |s| <= 2 then s else s[..2]
  }

  function Initials(name: Option<string>): (r: string)
    ensures !Present(name) ==> r == "?"
    ensures Present(name) ==> |r| <= 2
  {
    if !Present(name) then "?" else FirstTwo(UpperAll(Heads(Split(name.value))))
  }

  /** An independent reading of "first letter of each word": scanning left to right,
      keep a non-space character exactly when it follows a space or starts the name
      (`atStart` says whether the previous character was a space or there was none). */
  function WordStarts(s: string, atStart: bool): string {
    if s == [] then []
    else (if atStart && s[0] != ' ' then [s[0]] else []) + WordStarts(s[1..], s[0] == ' ')
  }

  /** Splitting and taking heads picks exactly the word-start characters, in order. */
  lemma {:induction false} HeadsOfSplit(s: string)
    ensures Heads(Split(s)) == WordStarts(s, true)
    ensures Heads(Split(s)[1..]) == WordStarts(s, false)
  {
    if s != [] {
      HeadsOfSplit(s[1..]);
      var rest := Split(s[1..]);
      if s[0] == ' ' {
        assert Split(s) == [[]] + rest;
        assert Split(s)[1..] == rest;
      } else {
        var w := [s[0]] + rest[0];
        assert Split(s) == [w] + rest[1..];
        assert Split(s)[1..] == rest[1..];
        assert Heads([w] + rest[1..]) == [s[0]] + Heads(rest[1..]);
      }
    }
  }

  /** The initials are the first (at most) two upper-cased word starts of the name. */
  lemma InitialsAreWordStarts(name: string)
    requires name != ""
    ensures Initials(Some(name)) == FirstTwo(UpperAll(WordStarts(name, true)))
  {
    HeadsOfSplit(name);
  }

  /** The word-start characters are never spaces. */
  lemma {:induction false} WordStartsNoSpace(s: string, atStart: bool)
    ensures ' ' !in WordStarts(s, atStart)
    ensures |WordStarts(s, atStart)| <= |s|
  {
    if s != [] {
      WordStartsNoSpace(s[1..], s[0] == ' ');
    }
  }

  /** Extra spaces anywhere, leading or repeated, add no character. */
  lemma SpacesAddNothing(prefix: string, s: string)
    ensures WordStarts(prefix + [' ', ' '] + s, true) == WordStarts(prefix + [' '] + s, true)
    ensures WordStarts([' '] + s, true) == WordStarts(s, true)
  {
    WordStartsAppendSpace(prefix, true, s);
    WordStartsAppendSpace(prefix, true, [' '] + s);
    assert prefix + [' ', ' '] + s == prefix + ([' '] + ([' '] + s));
    assert prefix + [' '] + s == prefix + ([' '] + s);
    assert ([' '] + s)[1..] == s;
  }

  /** After a space, what follows is scanned as from the start of a name. */
  lemma {:induction false} WordStartsAppendSpace(prefix: string, atStart: bool, s: string)
    ensures WordStarts(prefix + ([' '] + s), atStart) == WordStarts(prefix, atStart) + WordStarts(s, true)
  {
    if prefix == [] {
      assert prefix + ([' '] + s) == [' '] + s;
      assert ([' '] + s)[1..] == s;
    } else {
      assert (prefix + ([' '] + s))[1..] == prefix[1..] + ([' '] + s);
      WordStartsAppendSpace(prefix[1..], prefix[0] == ' ', s);
    }
  }

  /** A one-word name gives exactly one character: its first letter, upper-cased. */
  lemma SingleWord(name: string)
    requires name != "" && ' ' !in name
    ensures Initials(Some(name)) == [Upper(name[0])]
  {
    InitialsAreWordStarts(name);
    NoSpaceNoMoreStarts(name[1..]);
    assert name == [name[0]] + name[1..];
  }

  lemma {:induction false} NoSpaceNoMoreStarts(s: string)
    requires ' ' !in s
    ensures WordStarts(s, false) == []
  {
    if s != [] {
      assert s == [s[0]] + s[1..];
      NoSpaceNoMoreStarts(s[1..]);
    }
  }

  /** A name made only of spaces has no word starts, so its initials are empty (not "?"). */
  lemma {:induction false} BlankNameHasNoInitials(name: string, atStart: bool)
    requires forall i :: 0 <= i < |name| ==> name[i] == ' '
    ensures WordStarts(name, atStart) == []
  {
    if name != [] {
      BlankNameHasNoInitials(name[1..], true);
    }
  }
}
