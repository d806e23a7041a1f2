/** The string searches and the splitting used by the code, with their specifications. */
module Text {
  import opened Model
  import Decimal

  /** `pattern` occurs in `s` at `i`. */
  predicate OccursAt(s: string, pattern: string, i: nat) {
    i + |pattern| <= |s| && s[i..i + |pattern|] == pattern
  }

  predicate Contains(s: string, pattern: string) {
    exists i | 0 <= i <= |s| :: OccursAt(s, pattern, i)
  }

  /** std::string::find: the first occurrence at or after `from`. */
  function FindFrom(s: string, pattern: string, from: nat): (r: Option<nat>)
    ensures r.Some? ==> from <= r.value && OccursAt(s, pattern, r.value) && forall i: nat | from <= i < r.value ::
      !OccursAt(s, pattern, i)
    ensures r.None? ==> forall i: nat | from <= i :: !OccursAt(s, pattern, i)
    decreases |s| - from
  {
    if from + |pattern| > |s| then None
    else if OccursAt(s, pattern, from) then Some(from)
    else FindFrom(s, pattern, from + 1)
  }

  function Find(s: string, pattern: string): Option<nat> {
    FindFrom(s, pattern, 0)
  }

  function FindChar(s: string, c: char): (r: Option<nat>)
    ensures r.Some? ==> r.value < |s| && s[r.value] == c && c !in s[..r.value]
    ensures r.None? ==> c !in s
  {
    if s == [] then None
    else if s[0] == c then Some(0)
    else match FindChar(s[1..], c) {
      case None => None
      case Some(i) => assert s[..i + 1] == [s[0]] + s[1..][..i]; Some(i + 1)
    }
  }

  /** std::string::rfind of one character. */
  function FindLast(s: string, c: char): (r: Option<nat>)
    ensures r.Some? ==> r.value < |s| && s[r.value] == c && c !in s[r.value + 1..]
    ensures r.None? ==> c !in s
  {
    if s == [] then None
    else if s[|s| - 1] == c then Some(|s| - 1)
    else match FindLast(s[..|s| - 1], c) {
      case None => None
      case Some(i) => assert s[i + 1..] == s[..|s| - 1][i + 1..] + [s[|s| - 1]]; Some(i)
    }
  }

  // ----- Separated lists

  /** Every part followed by the separator. */
  function Terminated(parts: seq<string>, sep: char): string {
    if parts == [] then "" else Terminated(parts[..|parts| - 1], sep) + parts[|parts| - 1] + [sep]
  }

  /** The parts with the separator between them. */
  function Joined(parts: seq<string>, sep: char): string {
    if parts == [] then "" else Terminated(parts[..|parts| - 1], sep) + parts[|parts| - 1]
  }

  ghost predicate Clean(parts: seq<string>, sep: char) {
    forall p | p in parts :: sep !in p
  }

  /** The parts between the separators, one more than there are separators. */
  function Split(s: string, sep: char): (parts: seq<string>)
    ensures parts != []
  {
    if s == [] then [""] else
      var parts := Split(s[..|s| - 1], sep);
      var c := s[|s| - 1];
      if c == sep then parts + [""] else parts[|parts| - 1 := parts[|parts| - 1] + [c]]
  }

  /** The splitting loop. */
  method SplitLoop(s: string, sep: char) returns (parts: seq<string>)
    ensures parts == Split(s, sep)
  {
    parts := [];
    var current := "";
    assert s[..0] == [];
    for i := 0 to |s|
      invariant parts + [current] == Split(s[..i], sep)
    {
      assert s[..i + 1][..i] == s[..i];
      if s[i] == sep {
        parts := parts + [current];
        current := "";
      } else {
        current := current + [s[i]];
      }
    }
    assert s[..|s|] == s;
    parts := parts + [current];
  }

  /** Splitting loses nothing and leaves no separator in a part. */
  lemma {:induction false} SplitJoins(s: string, sep: char)
    ensures Joined(Split(s, sep), sep) == s && Clean(Split(s, sep), sep)
  {
    if s != [] {
      var front, c := s[..|s| - 1], s[|s| - 1];
      SplitJoins(front, sep);
      var parts, before := Split(s, sep), Split(front, sep);
      if c == sep {
        assert parts[..|parts| - 1] == before;
        assert Joined(parts, sep) == Terminated(before, sep) + "";
        assert Terminated(before, sep) == Joined(before, sep) + [sep];
      } else {
        assert parts[..|parts| - 1] == before[..|before| - 1];
      }
      assert s == front + [c];
    }
  }

  lemma {:induction false} JoinedInjective(a: seq<string>, b: seq<string>, sep: char)
    requires a != [] && b != [] && Clean(a, sep) && Clean(b, sep)
    requires Joined(a, sep) == Joined(b, sep)
    ensures a == b
    decreases |a| + |b|
  {
    var fa, fb, la, lb := a[..|a| - 1], b[..|b| - 1], a[|a| - 1], b[|b| - 1];
    assert la in a && lb in b;
    SeparatorIffMany(a, sep);
    SeparatorIffMany(b, sep);
    if fa == [] {
      assert a == [la] && b == [lb];
    } else {
      TerminatedJoined(fa, sep);
      TerminatedJoined(fb, sep);
      Decimal.CutLast(sep, Joined(fa, sep), la, Joined(fb, sep), lb);
      JoinedInjective(fa, fb, sep);
      assert a == fa + [la] && b == fb + [lb];
    }
  }

  lemma {:induction false} SeparatorIffMany(parts: seq<string>, sep: char)
    requires parts != [] && Clean(parts, sep)
    ensures sep in Joined(parts, sep) <==> |parts| > 1
    ensures |parts| == 1 ==> Joined(parts, sep) == parts[0]
  {
    var front, last := parts[..|parts| - 1], parts[|parts| - 1];
    assert last in parts;
    if front == [] {
      assert Joined(parts, sep) == "" + last == last;
    } else {
      TerminatedJoined(front, sep);
      assert Joined(parts, sep)[|Joined(front, sep)|] == sep;
    }
  }

  lemma {:induction false} TerminatedJoined(parts: seq<string>, sep: char)
    requires parts != []
    ensures Terminated(parts, sep) == Joined(parts, sep) + [sep]
  {
  }

  /** Splitting inverts joining. */
  lemma {:induction false} SplitOfJoined(parts: seq<string>, sep: char)
    requires parts != [] && Clean(parts, sep)
    ensures Split(Joined(parts, sep), sep) == parts
  {
    SplitJoins(Joined(parts, sep), sep);
    JoinedInjective(Split(Joined(parts, sep), sep), parts, sep);
  }
}
