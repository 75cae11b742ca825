/** Python's `str.split` and `str.join` with a one-character separator, as the
    command module applies them to dotted module paths and to comma-separated
    class lists. */
module Strings {

  /** `s.split(sep)`: the pieces of `s` between occurrences of `sep`, in order.
      Python always returns at least one piece; an empty `s` gives `[""]`. */
  function Split(s: string, sep: char): (parts: seq<string>)
    ensures |parts| >= 1
    ensures forall i :: 0 <= i < |parts| ==> sep !in parts[i]
  {
    if s == [] then [""]
    else
      var rest := Split(s[1..], sep);
      if s[0] == sep then [""] + rest
      else [[s[0]] + rest[0]] + rest[1..]
  }

  /** `sep.join(parts)`. */
  function Join(parts: seq<string>, sep: char): string
  {
    if parts == [] then ""
    else if |parts| == 1 then parts[0]
    else parts[0] + [sep] + Join(parts[1..], sep)
  }

  /** Prepending a character to the first piece prepends it to the joined string. */
  lemma JoinExtendHead(c: char, parts: seq<string>, sep: char)
    requires |parts| >= 1
    ensures Join([[c] + parts[0]] + parts[1..], sep) == [c] + Join(parts, sep)
  {
    var ext := [[c] + parts[0]] + parts[1..];
    assert ext[1..] == parts[1..];
  }

  /** Splitting loses nothing: joining the pieces back gives the original string. */
  lemma {:induction false} SplitJoin(s: string, sep: char)
    ensures Join(Split(s, sep), sep) == s
  {
    if s != [] {
      var rest := Split(s[1..], sep);
      SplitJoin(s[1..], sep);
      if s[0] == sep {
        assert ([""] + rest)[1..] == rest;
      } else {
        JoinExtendHead(s[0], rest, sep);
      }
      assert s == [s[0]] + s[1..];
    }
  }

  /** Splitting is the inverse of joining pieces that do not contain the separator. */
  lemma {:induction false} JoinSplit(parts: seq<string>, sep: char)
    requires |parts| >= 1
    requires forall i :: 0 <= i < |parts| ==> sep !in parts[i]
    ensures Split(Join(parts, sep), sep) == parts
    decreases |parts|, |parts[0]|
  {
    if parts[0] == [] {
      if |parts| > 1 {
        var tail := parts[1..];
        JoinSplit(tail, sep);
        var s := Join(parts, sep);
        assert s == [sep] + Join(tail, sep);
        assert s[1..] == Join(tail, sep);
        assert parts == [""] + tail;
      }
    } else {
      var c := parts[0][0];
      assert c in parts[0];
      var shorter := [parts[0][1..]] + parts[1..];
      JoinSplit(shorter, sep);
      JoinExtendHead(c, shorter, sep);
      assert parts[0] == [c] + shorter[0];
      assert [[c] + shorter[0]] + shorter[1..] == parts;
      var s := Join(parts, sep);
      assert s[1..] == Join(shorter, sep);
    }
  }

  /** There is one more piece than there are separators in `s`. */
  lemma {:induction false} SplitCount(s: string, sep: char)
    ensures |Split(s, sep)| == multiset(s)[sep] + 1
  {
    if s != [] {
      SplitCount(s[1..], sep);
      assert s == [s[0]] + s[1..];
      assert multiset(s) == multiset([s[0]]) + multiset(s[1..]);
    }
  }

  /** The first piece is the longest prefix of `s` free of `sep`: it is all of `s`
      or it is followed by a separator. */
  lemma {:induction false} FirstPiece(s: string, sep: char)
    ensures var p := Split(s, sep)[0];
      |p| <= |s| && p == s[..|p|] && (|p| == |s| || s[|p|] == sep)
  {
    if s != [] && s[0] != sep {
      FirstPiece(s[1..], sep);
    }
  }

  /** A split into a single piece leaves the string whole. */
  lemma OnePiece(s: string, sep: char)
    requires |Split(s, sep)| == 1
    ensures Split(s, sep) == [s]
  {
    SplitJoin(s, sep);
  }

  /** A split into several pieces means the string holds a separator. */
  lemma ManyPieces(s: string, sep: char)
    requires |Split(s, sep)| > 1
    ensures sep in s
  {
    SplitCount(s, sep);
    assert sep in multiset(s);
  }

  /** The last piece is the longest suffix of `s` free of `sep`: it is all of `s`
      or it is preceded by a separator. */
  lemma {:induction false} LastPiece(s: string, sep: char)
    ensures var parts := Split(s, sep); var p := parts[|parts| - 1];
      |p| <= |s| && p == s[|s| - |p|..] && (|p| == |s| || s[|s| - |p| - 1] == sep)
  {
    if s != [] {
      var tail := s[1..];
      var rest := Split(tail, sep);
      LastPiece(tail, sep);
      var parts := Split(s, sep);
      assert s == [s[0]] + tail;
      if s[0] != sep && |rest| == 1 {
        OnePiece(tail, sep);
        assert parts == [s];
      } else {
        var p := rest[|rest| - 1];
        assert parts[|parts| - 1] == p;
        if s[0] != sep {
          ManyPieces(tail, sep);
          assert p != tail;
        }
        assert tail[|tail| - |p|..] == s[|s| - |p|..];
        if |p| < |tail| {
          assert tail[|tail| - |p| - 1] == s[|s| - |p| - 1];
        }
      }
    }
  }
}
