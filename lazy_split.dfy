/**
 * The ` - ` split shared by `!set_reminder` and `!play_music`: a regular
 * expression whose first group `^(.*?)` is lazy, followed by `\s-\s`, so the
 * split happens at the leftmost separator after which the rest of the
 * pattern can still match. Neither `.` nor the anchors cross a line
 * terminator (`$` without the `m` flag is the end of the input).
 */
module LazySplit {
  import opened Text

  /** `\s-\s` at position `i`. */
  predicate IsSepAt(s: string, i: nat)
  {
    i + 3 <= |s| && IsJsSpace(s[i]) && s[i + 1] == '-' && IsJsSpace(s[i + 2])
  }

  /** `t` is exactly the reminder flag `\s-\s-e`. */
  predicate IsFlag(t: string)
  {
    |t| == 5 && IsSepAt(t, 0) && t[3] == '-' && t[4] == 'e'
  }

  predicate EndsWithFlag(t: string)
  {
    |t| >= 5 && IsFlag(t[|t| - 5..])
  }

  /** No separator starts inside `d` when `d` is followed by ` - `. */
  predicate NoSeparatorIn(d: string)
  {
    forall i :: 0 <= i < |d| ==> !IsSepAt(d + " - ", i)
  }

  /**
   * What follows the separator:
   * `(.+?)(?:\s-\s-e)?$` for reminders, `(.+)$` for music.
   */
  datatype Tail = ReminderTail | MusicTail

  /** The second group captured from `rest`, the text after the separator, if the tail matches. */
  function MatchTail(kind: Tail, rest: string): Option<string>
  {
    match kind
    case MusicTail =>
      if |rest| >= 1 && NoLineTerminator(rest) then Some(rest) else None
    case ReminderTail =>
      // the lazy group stops at the first end from which `(?:\s-\s-e)?$` matches:
      // right before a final flag if the group is then non-empty, otherwise the end
      if |rest| >= 6 && EndsWithFlag(rest) && NoLineTerminator(rest[..|rest| - 5]) then
        Some(rest[..|rest| - 5])
      else if |rest| >= 1 && NoLineTerminator(rest) then Some(rest)
      else None
  }

  /**
   * The second group is non-empty and on one line; for music it is all the
   * rest, for reminders the rest or the rest without a final flag.
   */
  lemma MatchTailCaptures(kind: Tail, rest: string)
    requires MatchTail(kind, rest).Some?
    ensures var r := MatchTail(kind, rest).value;
      && |r| >= 1 && NoLineTerminator(r)
      && (kind == MusicTail ==> r == rest)
      && (kind == ReminderTail ==>
            rest == r || (|rest| == |r| + 5 && rest[..|r|] == r && EndsWithFlag(rest)))
  {
    if kind == ReminderTail && |rest| >= 6 && EndsWithFlag(rest) && NoLineTerminator(rest[..|rest| - 5]) {
      assert rest == rest[..|rest| - 5] + rest[|rest| - 5..];
    }
  }

  /** The whole pattern matches with the first group ending at `i`. */
  predicate MatchesAt(kind: Tail, s: string, i: nat)
  {
    i + 3 <= |s| && NoLineTerminator(s[..i]) && IsSepAt(s, i) && MatchTail(kind, s[i + 3..]).Some?
  }

  /** The leftmost end of the lazy first group, trying `from`, `from + 1`, … in turn. */
  function FirstMatch(kind: Tail, s: string, from: nat): (r: Option<nat>)
    requires from <= |s| && NoLineTerminator(s[..from])
    ensures r.Some? ==> from <= r.value && MatchesAt(kind, s, r.value)
    ensures r.Some? ==> forall i :: from <= i < r.value ==> !MatchesAt(kind, s, i)
    ensures r.None? ==> forall i :: from <= i <= |s| ==> !MatchesAt(kind, s, i)
    decreases |s| - from
  {
    if from + 3 > |s| then None
    else if IsSepAt(s, from) && MatchTail(kind, s[from + 3..]).Some? then Some(from)
    else if IsLineTerminator(s[from]) then
      // `.` cannot take this character, so no later end is possible
      TerminatorStopsMatch(kind, s, from);
      None
    else
      PrefixWithoutTerminator(s, from);
      FirstMatch(kind, s, from + 1)
  }

  lemma TerminatorStopsMatch(kind: Tail, s: string, from: nat)
    requires from < |s| && IsLineTerminator(s[from])
    ensures forall i :: from < i <= |s| ==> !MatchesAt(kind, s, i)
  {
    forall i | from < i <= |s| ensures !NoLineTerminator(s[..i]) {
      assert s[..i][from] == s[from];
    }
  }

  lemma PrefixWithoutTerminator(s: string, from: nat)
    requires from < |s| && NoLineTerminator(s[..from]) && !IsLineTerminator(s[from])
    ensures NoLineTerminator(s[..from + 1])
  {
    assert s[..from + 1] == s[..from] + [s[from]];
  }

  /** The two captured groups, if the pattern matches `s`. */
  function Match(kind: Tail, s: string): (r: Option<(string, string)>)
    ensures r.None? <==> forall i :: 0 <= i <= |s| ==> !MatchesAt(kind, s, i)
    ensures r.Some? ==>
      && MatchesAt(kind, s, |r.value.0|) && r.value.0 == s[..|r.value.0|]
      && (forall j :: 0 <= j < |r.value.0| ==> !MatchesAt(kind, s, j))
      && r.value.1 == MatchTail(kind, s[|r.value.0| + 3..]).value
  {
    assert s[..0] == [];
    match FirstMatch(kind, s, 0)
    case None => None
    case Some(i) => Some((s[..i], MatchTail(kind, s[i + 3..]).value))
  }

  /**
   * With a ` - ` separator and no earlier one, the first group is the text
   * before it and the second the text after it (for reminders, without a
   * final flag).
   */
  lemma {:induction false} MatchAtFirstSeparator(kind: Tail, d: string, tail: string)
    requires NoLineTerminator(d) && NoSeparatorIn(d)
    requires MatchTail(kind, tail).Some?
    ensures Match(kind, d + " - " + tail) == Some((d, MatchTail(kind, tail).value))
  {
    var s := d + " - " + tail;
    assert s[..|d|] == d;
    assert s[|d| + 3..] == tail;
    assert MatchesAt(kind, s, |d|);
    assert forall i :: 0 <= i < |d| ==> !IsSepAt(s, i) by {
      forall i | 0 <= i < |d| ensures !IsSepAt(s, i) {
        assert !IsSepAt(d + " - ", i);
        assert s[i] == (d + " - ")[i] && s[i + 1] == (d + " - ")[i + 1] && s[i + 2] == (d + " - ")[i + 2];
      }
    }
    assert s[..0] == [];
    var r := FirstMatch(kind, s, 0);
    assert r == Some(|d|);
  }

  /** The captured groups rebuild the input around its separator. */
  lemma MatchRebuilds(kind: Tail, s: string)
    requires Match(kind, s).Some?
    ensures var (first, second) := Match(kind, s).value;
      && |first| + 3 <= |s| && IsSepAt(s, |first|)
      && (kind == MusicTail ==> s == first + s[|first|..|first| + 3] + second)
      && (kind == ReminderTail ==>
            || s == first + s[|first|..|first| + 3] + second
            || (s == first + s[|first|..|first| + 3] + second + s[|s| - 5..] && EndsWithFlag(s)))
  {
    RebuildAt(kind, s, |Match(kind, s).value.0|);
  }

  /** The input around a match at `i`: the text before, the separator, the tail. */
  lemma RebuildAt(kind: Tail, s: string, i: nat)
    requires MatchesAt(kind, s, i)
    ensures var rest := s[i + 3..];
      var second := MatchTail(kind, rest).value;
      && (kind == MusicTail ==> s == s[..i] + s[i..i + 3] + second)
      && (kind == ReminderTail ==>
            || s == s[..i] + s[i..i + 3] + second
            || (s == s[..i] + s[i..i + 3] + second + s[|s| - 5..] && EndsWithFlag(s)))
  {
    var rest := s[i + 3..];
    var second := MatchTail(kind, rest).value;
    assert s == s[..i] + s[i..i + 3] + rest;
    if kind == ReminderTail && rest != second {
      assert rest == second + rest[|second|..];
      assert s[|s| - 5..] == rest[|rest| - 5..];
    }
  }
}
