/** Splitting text at a separator. */
module Splitting {

  /** The pieces between separators; always at least one. */
  function Split(s: string, sep: char): (r: seq<string>)
    ensures |r| >= 1
  {
    if s == [] then [[]]
    else
      var rest := Split(s[1..], sep);
      if s[0] == sep then [[]] + rest else [[s[0]] + rest[0]] + rest[1..]
  }

  predicate Free(s: string, sep: char) {
    forall i :: 0 <= i < |s| ==> s[i] != sep
  }

  lemma {:induction false} SplitFree(s: string, sep: char)
    requires Free(s, sep)
    ensures Split(s, sep) == [s]
  {
    if s == [] {
    } else {
      SplitFree(s[1..], sep);
      assert [s[0]] + s[1..] == s;
    }
  }

  lemma {:induction false} SplitFirst(a: string, b: string, sep: char)
    requires Free(a, sep)
    ensures Split(a + [sep] + b, sep) == [a] + Split(b, sep)
  {
    var s := a + [sep] + b;
    if a == [] {
      assert s[1..] == b;
    } else {
      SplitFirst(a[1..], b, sep);
      assert s[1..] == a[1..] + [sep] + b;
      assert [a[0]] + a[1..] == a;
      assert ([a[1..]] + Split(b, sep))[1..] == Split(b, sep);
    }
  }

  function Joined(fields: seq<string>, sep: char): string
    requires fields != []
  {
    if |fields| == 1 then fields[0] else fields[0] + [sep] + Joined(fields[1..], sep)
  }

  /** Splitting undoes joining when no field holds the separator. */
  lemma {:induction false} SplitJoined(fields: seq<string>, sep: char)
    requires fields != [] && forall i :: 0 <= i < |fields| ==> Free(fields[i], sep)
    ensures Split(Joined(fields, sep), sep) == fields
  {
    if |fields| == 1 {
      SplitFree(fields[0], sep);
      assert fields == [fields[0]];
    } else {
      SplitJoined(fields[1..], sep);
      SplitFirst(fields[0], Joined(fields[1..], sep), sep);
      assert [fields[0]] + fields[1..] == fields;
    }
  }

  lemma JoinedPrefix(c: char, rest: seq<string>, sep: char)
    requires rest != []
    ensures Joined([[]] + rest, sep) == [sep] + Joined(rest, sep)
    ensures Joined([[c] + rest[0]] + rest[1..], sep) == [c] + Joined(rest, sep)
  {
    assert ([[]] + rest)[1..] == rest;
    var pieces := [[c] + rest[0]] + rest[1..];
    assert pieces[1..] == rest[1..];
    if |rest| > 1 {
      assert [c] + rest[0] + [sep] + Joined(rest[1..], sep) == [c] + (rest[0] + [sep] + Joined(rest[1..], sep));
    }
  }

  /** Joining undoes splitting, and no piece holds the separator. */
  lemma {:induction false} JoinedSplit(s: string, sep: char)
    ensures Joined(Split(s, sep), sep) == s
    ensures forall i :: 0 <= i < |Split(s, sep)| ==> Free(Split(s, sep)[i], sep)
  {
    if s == [] {
    } else {
      var rest := Split(s[1..], sep);
      JoinedSplit(s[1..], sep);
      assert [s[0]] + s[1..] == s;
      JoinedPrefix(s[0], rest, sep);
      hide Joined;
    }
  }

  lemma {:induction false} JoinedFree(fields: seq<string>, sep: char, c: char)
    requires fields != [] && c != sep && forall i :: 0 <= i < |fields| ==> Free(fields[i], c)
    ensures Free(Joined(fields, sep), c)
  {
    if |fields| <= 1 {
    } else {
      JoinedFree(fields[1..], sep, c);
    }
  }

  /** A piece under construction, glued in front of what is still to come. */
  function Glued(piece: string, rest: seq<string>): seq<string>
    requires rest != []
  {
    [piece + rest[0]] + rest[1..]
  }

  lemma GluedNothing(rest: seq<string>)
    requires rest != []
    ensures Glued([], rest) == rest
  {
    assert [] + rest[0] == rest[0];
  }

  lemma GluedSeparator(piece: string, rest: seq<string>)
    ensures Glued(piece, [[]] + rest) == [piece] + rest
  {
    assert piece + [] == piece;
    assert ([[]] + rest)[1..] == rest;
  }

  lemma GluedChar(piece: string, c: char, rest: seq<string>)
    requires rest != []
    ensures Glued(piece, [[c] + rest[0]] + rest[1..]) == Glued(piece + [c], rest)
  {
    assert piece + ([c] + rest[0]) == piece + [c] + rest[0];
    assert ([[c] + rest[0]] + rest[1..])[1..] == rest[1..];
  }
}
