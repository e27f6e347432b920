/**
 * The JavaScript string operations the repository relies on: `split` and `join` on a
 * one-character separator, `includes`, `startsWith`, the default code-unit order used by
 * `Array.prototype.sort()`, and matching of the pattern `/\/seg\/([^\/]+)/i` that every
 * id parser uses.
 */
module Text {
  import opened Wrappers

  // ---------------------------------------------------------------------------
  // split / join
  // ---------------------------------------------------------------------------

  /** `s.split(sep)` for a one-character separator: the pieces between separators. */
  function Split(s: string, sep: char): (parts: seq<string>)
    ensures |parts| >= 1
    ensures forall i :: 0 <= i < |parts| ==> sep !in parts[i]
    decreases |s|
  {
    if |s| == 0 then [""]
    else if s[0] == sep then [""] + Split(s[1..], sep)
    else
      var rest := Split(s[1..], sep);
      [[s[0]] + rest[0]] + rest[1..]
  }

  /** There is a single piece exactly when the separator does not occur. */
  lemma {:induction false} SplitOnePart(s: string, sep: char)
    ensures |Split(s, sep)| == 1 <==> sep !in s
    decreases |s|
  {
    if |s| > 0 && s[0] != sep {
      SplitOnePart(s[1..], sep);
      assert s == [s[0]] + s[1..];
    }
  }

  /** `parts.join(sep)`. */
  function Join(parts: seq<string>, sep: string): (r: string)
  {
    if |parts| == 0 then ""
    else if |parts| == 1 then parts[0]
    else parts[0] + sep + Join(parts[1..], sep)
  }

  /** Joining what `split` produced gives the string back. */
  lemma {:induction false} JoinSplit(s: string, sep: char)
    ensures Join(Split(s, sep), [sep]) == s
    decreases |s|
  {
    if |s| == 0 {
    } else if s[0] == sep {
      var rest := Split(s[1..], sep);
      JoinSplit(s[1..], sep);
      assert Split(s, sep) == [""] + rest;
      assert ([""] + rest)[1..] == rest;
    } else {
      var rest := Split(s[1..], sep);
      JoinSplit(s[1..], sep);
      var parts := Split(s, sep);
      assert parts == [[s[0]] + rest[0]] + rest[1..];
      assert s == [s[0]] + s[1..];
      if |rest| == 1 {
        assert Join(rest, [sep]) == rest[0];
      } else {
        var tail := Join(rest[1..], [sep]);
        assert |parts| == |rest| && parts[1..] == rest[1..];
        assert Join(rest, [sep]) == rest[0] + [sep] + tail;
        assert Join(parts, [sep]) == [s[0]] + rest[0] + [sep] + tail;
      }
    }
  }

  /** A join splits at any boundary between its parts. */
  lemma {:induction false} JoinAt(parts: seq<string>, sep: string, k: nat)
    requires 1 <= k < |parts|
    ensures Join(parts, sep) == Join(parts[..k], sep) + sep + Join(parts[k..], sep)
    decreases k
  {
    if k == 1 {
      assert parts[..1] == [parts[0]];
    } else {
      JoinAt(parts[1..], sep, k - 1);
      assert parts[1..][..k - 1] == parts[1..k];
      assert parts[1..][k - 1..] == parts[k..];
      assert parts[..k][1..] == parts[1..k];
    }
  }

  /** Appending a part appends the separator and the part. */
  lemma JoinSnoc(parts: seq<string>, sep: string, x: string)
    requires |parts| >= 1
    ensures Join(parts + [x], sep) == Join(parts, sep) + sep + x
  {
    JoinAt(parts + [x], sep, |parts|);
    assert (parts + [x])[..|parts|] == parts;
    assert (parts + [x])[|parts|..] == [x];
  }

  /** Splitting a piece without separators followed by a separator yields that piece first. */
  lemma {:induction false} SplitAfterPiece(a: string, sep: char, b: string)
    requires sep !in a
    ensures Split(a + [sep] + b, sep) == [a] + Split(b, sep)
    decreases |a|
  {
    var s := a + [sep] + b;
    if |a| == 0 {
      assert s == [sep] + b;
      assert s[1..] == b;
    } else {
      SplitAfterPiece(a[1..], sep, b);
      assert s[0] == a[0] && s[0] != sep;
      assert s[1..] == a[1..] + [sep] + b;
      var rest := Split(s[1..], sep);
      assert rest == [a[1..]] + Split(b, sep);
      assert Split(s, sep) == [[a[0]] + a[1..]] + rest[1..];
      assert [a[0]] + a[1..] == a;
    }
  }

  /** Splitting a join of separator-free parts gives the parts back. */
  lemma {:induction false} SplitJoin(parts: seq<string>, sep: char)
    requires |parts| >= 1
    requires forall i :: 0 <= i < |parts| ==> sep !in parts[i]
    ensures Split(Join(parts, [sep]), sep) == parts
    decreases |parts|
  {
    if |parts| == 1 {
      JoinSplit(parts[0], sep);
    } else {
      SplitJoin(parts[1..], sep);
      SplitAfterPiece(parts[0], sep, Join(parts[1..], [sep]));
      assert [parts[0]] + parts[1..] == parts;
    }
  }

  // ---------------------------------------------------------------------------
  // includes, startsWith
  // ---------------------------------------------------------------------------

  /** `s.includes(sub)`: case-sensitive substring test, scanning the start positions left to right. */
  predicate Includes(s: string, sub: string)
    decreases |s|
  {
    StartsWith(s, sub) || (|s| > 0 && Includes(s[1..], sub))
  }

  /** `sub` is included exactly when it occurs at some position of `s`. */
  lemma {:induction false} IncludesMeaning(s: string, sub: string)
    ensures Includes(s, sub) <==> exists i: nat :: OccursAt(s, sub, i)
    decreases |s|
  {
    if StartsWith(s, sub) {
      assert OccursAt(s, sub, 0);
    }
    if |s| > 0 {
      IncludesMeaning(s[1..], sub);
      if exists i: nat :: OccursAt(s[1..], sub, i) {
        var i: nat :| OccursAt(s[1..], sub, i);
        assert s[i + 1..i + 1 + |sub|] == s[1..][i..i + |sub|];
        assert OccursAt(s, sub, i + 1);
      }
      if exists i: nat :: OccursAt(s, sub, i) {
        var i: nat :| OccursAt(s, sub, i);
        if i > 0 {
          assert s[1..][i - 1..i - 1 + |sub|] == s[i..i + |sub|];
          assert OccursAt(s[1..], sub, i - 1);
        } else {
          assert StartsWith(s, sub);
        }
      }
    } else if exists i: nat :: OccursAt(s, sub, i) {
      var i: nat :| OccursAt(s, sub, i);
      assert i == 0 && |sub| == 0;
      assert StartsWith(s, sub);
    }
  }

  /** `sub` occurs in `s` starting at position `i`. */
  predicate OccursAt(s: string, sub: string, i: nat)
  {
    i + |sub| <= |s| && s[i..i + |sub|] == sub
  }

  /** `s.startsWith(p)`. */
  predicate StartsWith(s: string, p: string)
  {
    |p| <= |s| && s[..|p|] == p
  }

  // ---------------------------------------------------------------------------
  // Code-unit order, as `Array.prototype.sort()` uses without a comparator
  // ---------------------------------------------------------------------------

  /** `a` sorts strictly before `b`: a proper prefix, or smaller at the first difference. */
  predicate Below(a: string, b: string)
    decreases |a|
  {
    |b| > 0 && (|a| == 0 || a[0] < b[0] || (a[0] == b[0] && Below(a[1..], b[1..])))
  }

  lemma {:induction false} BelowIrreflexive(a: string)
    ensures !Below(a, a)
    decreases |a|
  {
    if |a| > 0 { BelowIrreflexive(a[1..]); }
  }

  lemma {:induction false} BelowTransitive(a: string, b: string, c: string)
    requires Below(a, b) && Below(b, c)
    ensures Below(a, c)
    decreases |a|
  {
    if |a| > 0 && a[0] == b[0] && b[0] == c[0] {
      BelowTransitive(a[1..], b[1..], c[1..]);
    }
  }

  lemma {:induction false} BelowTotal(a: string, b: string)
    requires a != b
    ensures Below(a, b) || Below(b, a)
    decreases |a|
  {
    if |a| > 0 && |b| > 0 && a[0] == b[0] {
      assert a == [a[0]] + a[1..] && b == [b[0]] + b[1..];
      BelowTotal(a[1..], b[1..]);
    }
  }

  /** Strictly ascending, hence duplicate-free. */
  predicate StrictlyAscending(s: seq<string>)
  {
    forall i, j :: 0 <= i < j < |s| ==> Below(s[i], s[j])
  }

  lemma StrictlyAscendingDistinct(s: seq<string>, i: nat, j: nat)
    requires StrictlyAscending(s)
    requires i < j < |s|
    ensures s[i] != s[j]
  {
    BelowIrreflexive(s[i]);
  }

  // ---------------------------------------------------------------------------
  // The pattern /\/seg\/([^\/]+)/i
  // ---------------------------------------------------------------------------

  /** What the `i` flag compares: ASCII letters up-cased, every other character as is. */
  function Fold(c: char): (r: char)
    ensures r == c || ('a' <= c <= 'z' && r as int == c as int - 32)
  {
    if 'a' <= c <= 'z' then (c as int - 32) as char else c
  }

  /** The literal `marker` occurs at position `i` of `s`, ignoring ASCII case. */
  predicate MarkerAt(s: string, i: nat, marker: string)
  {
    i + |marker| <= |s| && forall k :: 0 <= k < |marker| ==> Fold(s[i + k]) == Fold(marker[k])
  }

  /** The whole pattern matches at `i`: the marker, then at least one character that is not `/`. */
  predicate MatchAt(s: string, i: nat, marker: string)
  {
    MarkerAt(s, i, marker) && i + |marker| < |s| && s[i + |marker|] != '/'
  }

  /** The leftmost position at or after `from` where the pattern matches. */
  function FirstMatch(s: string, marker: string, from: nat): (r: Option<nat>)
    ensures r.Some? ==> from <= r.value && MatchAt(s, r.value, marker)
    ensures r.Some? ==> forall j :: from <= j < r.value ==> !MatchAt(s, j, marker)
    ensures r.None? ==> forall j :: from <= j ==> !MatchAt(s, j, marker)
    decreases |s| - from
  {
    if from >= |s| then None
    else if MatchAt(s, from, marker) then Some(from)
    else FirstMatch(s, marker, from + 1)
  }

  /** The maximal run of characters other than `/` that starts at `j`. */
  function Run(s: string, j: nat): (r: string)
    requires j <= |s|
    ensures j + |r| <= |s| && r == s[j..j + |r|]
    ensures '/' !in r
    ensures j + |r| == |s| || s[j + |r|] == '/'
    decreases |s| - j
  {
    if j == |s| || s[j] == '/' then "" else [s[j]] + Run(s, j + 1)
  }

  /** A run is determined by where it stops: a `/`-free piece followed by `/` or the end. */
  lemma RunIs(s: string, j: nat, x: string)
    requires j + |x| <= |s| && s[j..j + |x|] == x && '/' !in x
    requires j + |x| == |s| || s[j + |x|] == '/'
    ensures Run(s, j) == x
  {
    var r := Run(s, j);
    assert |r| == |x|;
  }

  /** The capture group of the leftmost match, or None when the pattern does not match. */
  function Capture(s: string, marker: string): (r: Option<string>)
    ensures r.Some? ==> r.value != [] && '/' !in r.value
  {
    match FirstMatch(s, marker, 0)
    case None => None
    case Some(i) => Some(Run(s, i + |marker|))
  }

  /** There is a capture exactly when the pattern matches somewhere. */
  lemma CaptureMatches(s: string, marker: string)
    ensures Capture(s, marker).Some? <==> exists i :: MatchAt(s, i, marker)
  {
    if Capture(s, marker).None? {
      assert FirstMatch(s, marker, 0).None?;
    }
  }

  /** The source's `match ? match[1] : ''`. */
  function CaptureOrEmpty(s: string, marker: string): (r: string)
    ensures '/' !in r
  {
    Capture(s, marker).GetOr("")
  }

  /** The result is empty exactly when the pattern matches nowhere. */
  lemma CaptureOrEmptyMeaning(s: string, marker: string)
    ensures CaptureOrEmpty(s, marker) == [] <==> forall i :: !MatchAt(s, i, marker)
  {
    CaptureMatches(s, marker);
  }

  /** The capture is the run after the leftmost match, and no earlier position matches. */
  lemma CaptureIsLeftmost(s: string, marker: string)
    requires Capture(s, marker).Some?
    ensures exists i: nat :: MatchAt(s, i, marker)
                     && (forall j: nat :: j < i ==> !MatchAt(s, j, marker))
                     && Capture(s, marker).value == Run(s, i + |marker|)
  {
    var i := FirstMatch(s, marker, 0).value;
    assert MatchAt(s, i, marker) && (forall j: nat :: j < i ==> !MatchAt(s, j, marker))
        && Capture(s, marker).value == Run(s, i + |marker|);
  }

  // ---------------------------------------------------------------------------
  // The positions a filter keeps
  // ---------------------------------------------------------------------------

  /** The indices at which `flags` holds, in increasing order. */
  function Positions(flags: seq<bool>): (idx: seq<nat>)
    ensures forall k :: 0 <= k < |idx| ==> idx[k] < |flags|
    decreases |flags|
  {
    if flags == [] then [] else Positions(flags[..|flags| - 1]) + (if flags[|flags| - 1] then [|flags| - 1] else [])
  }

  /** Exactly the indices where `flags` holds are listed, each once, in increasing order. */
  lemma {:induction false} PositionsMeaning(flags: seq<bool>)
    ensures forall k :: 0 <= k < |Positions(flags)| ==> flags[Positions(flags)[k]]
    ensures forall k, l :: 0 <= k < l < |Positions(flags)| ==> Positions(flags)[k] < Positions(flags)[l]
    ensures forall i :: 0 <= i < |flags| && flags[i] ==> i in Positions(flags)
    decreases |flags|
  {
    if flags != [] {
      var init := flags[..|flags| - 1];
      PositionsMeaning(init);
      assert forall i :: 0 <= i < |init| ==> init[i] == flags[i];
    }
  }

  // ---------------------------------------------------------------------------
  // Concatenating a sequence of sequences
  // ---------------------------------------------------------------------------

  /** The parts one after the other, in order. */
  function Flatten<T>(parts: seq<seq<T>>): (r: seq<T>)
    decreases |parts|
  {
    if parts == [] then [] else Flatten(parts[..|parts| - 1]) + parts[|parts| - 1]
  }
}
