/** Splitting text at a separator character, as JavaScript's `String.prototype.split`
    does when given a one-character string, and the inverse join. */
module Segments {

  /** The pieces of `s` between occurrences of `sep`: never empty, and no piece
      contains the separator. `"".split(":")` is `[""]` and `"a:".split(":")` is
      `["a", ""]`. */
  function Split(s: string, sep: char): (parts: seq<string>)
    ensures |parts| >= 1
    ensures forall i | 0 <= i < |parts| :: sep !in parts[i]
    decreases |s|
  {
    if |s| == 0 then [""]
    else
      var rest := Split(s[1..], sep);
      if s[0] == sep then [""] + rest
      else [[s[0]] + rest[0]] + rest[1..]
  }

  /** The pieces glued back together with one separator between neighbours. */
  function Join(parts: seq<string>, sep: char): string
    requires |parts| >= 1
  {
    if |parts| == 1 then parts[0] else parts[0] + [sep] + Join(parts[1..], sep)
  }

  /** `seg` is the text of `s` up to (not including) its first separator,
      or all of `s` when it has none. */
  predicate IsLeadingSegment(s: string, seg: string, sep: char) {
    && |seg| <= |s|
    && s[..|seg|] == seg
    && sep !in seg
    && (|seg| == |s| || s[|seg|] == sep)
  }

  /** A string has only one leading segment. */
  lemma LeadingSegmentUnique(s: string, a: string, b: string, sep: char)
    requires IsLeadingSegment(s, a, sep) && IsLeadingSegment(s, b, sep)
    ensures a == b
  {
  }

  /** Joining the pieces of a split gives back the original text. */
  lemma {:induction false} JoinSplit(s: string, sep: char)
    ensures Join(Split(s, sep), sep) == s
    decreases |s|
  {
    if |s| > 0 {
      JoinSplit(s[1..], sep);
      var rest := Split(s[1..], sep);
      if s[0] == sep {
        assert Split(s, sep) == [""] + rest;
        assert ([""] + rest)[1..] == rest;
      } else {
        var parts := Split(s, sep);
        assert parts[0] == [s[0]] + rest[0];
        assert parts[1..] == rest[1..];
        if |rest| == 1 {
          assert Join(parts, sep) == [s[0]] + rest[0];
        } else {
          assert Join(rest, sep) == rest[0] + [sep] + Join(rest[1..], sep);
        }
        assert s == [s[0]] + s[1..];
      }
    }
  }

  /** Splitting a join of separator-free pieces gives back the pieces. */
  lemma {:induction false} SplitJoin(parts: seq<string>, sep: char)
    requires |parts| >= 1
    requires forall i | 0 <= i < |parts| :: sep !in parts[i]
    ensures Split(Join(parts, sep), sep) == parts
    decreases |parts|, |parts[0]|
  {
    var p := parts[0];
    if |parts| == 1 {
      SplitSeparatorFree(p, sep);
    } else if |p| == 0 {
      var tail := parts[1..];
      SplitJoin(tail, sep);
      var s := Join(parts, sep);
      assert s == [sep] + Join(tail, sep);
      assert s[1..] == Join(tail, sep);
      assert parts == [""] + tail;
    } else {
      var shorter := [p[1..]] + parts[1..];
      assert forall i | 0 <= i < |shorter| :: sep !in shorter[i] by {
        forall i | 0 <= i < |shorter| ensures sep !in shorter[i] {
          if i == 0 {
            assert forall c | c in p[1..] :: c in p;
          } else {
            assert shorter[i] == parts[i];
          }
        }
      }
      SplitJoin(shorter, sep);
      var s := Join(parts, sep);
      assert shorter[1..] == parts[1..];
      assert Join(shorter, sep) == p[1..] + [sep] + Join(parts[1..], sep);
      assert s == [p[0]] + Join(shorter, sep);
      assert s[1..] == Join(shorter, sep);
      assert p[0] in p && p[0] != sep;
      assert Split(s, sep) == [[p[0]] + p[1..]] + shorter[1..];
      assert [p[0]] + p[1..] == p;
      assert parts == [p] + parts[1..];
    }
  }

  /** Text without a separator splits into itself alone. */
  lemma {:induction false} SplitSeparatorFree(s: string, sep: char)
    requires sep !in s
    ensures Split(s, sep) == [s]
    decreases |s|
  {
    if |s| > 0 {
      assert forall c | c in s[1..] :: c in s;
      SplitSeparatorFree(s[1..], sep);
      assert s == [s[0]] + s[1..];
    }
  }

  /** The first piece is the leading segment; there is more than one piece exactly
      when `s` contains the separator, and then the remaining pieces are the split
      of the text after the first separator. */
  lemma {:induction false} SplitHead(s: string, sep: char)
    ensures IsLeadingSegment(s, Split(s, sep)[0], sep)
    ensures |Split(s, sep)| == 1 <==> sep !in s
    ensures |Split(s, sep)| > 1 ==>
              |Split(s, sep)[0]| < |s| &&
              Split(s, sep)[1..] == Split(s[|Split(s, sep)[0]| + 1..], sep)
    decreases |s|
  {
    if |s| > 0 {
      SplitHead(s[1..], sep);
      var rest := Split(s[1..], sep);
      var parts := Split(s, sep);
      if s[0] == sep {
        assert parts == [""] + rest;
        assert parts[1..] == rest;
        assert s[1..] == s[0 + 1..];
      } else {
        var h := rest[0];
        assert parts[0] == [s[0]] + h;
        assert s[..|parts[0]|] == [s[0]] + s[1..][..|h|];
        assert sep in s <==> sep in s[1..] by {
          assert s == [s[0]] + s[1..];
        }
        if |parts| > 1 {
          assert parts[1..] == rest[1..];
          assert s[|parts[0]| + 1..] == s[1..][|h| + 1..];
        }
      }
    }
  }
}
