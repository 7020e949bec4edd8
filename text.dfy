/**
 * String helpers with the semantics the driver relies on: ASCII
 * `toLowerCase`, prefix tests, and JavaScript's `String.prototype.split`
 * with a one-character separator.
 */
module Text {

  predicate IsUpper(c: char) {
    'A' <= c <= 'Z'
  }

  /** `toLowerCase` on one character, ASCII range only. */
  function Lower(c: char): (r: char)
    ensures !IsUpper(r)
    ensures !IsUpper(c) ==> r == c
    ensures IsUpper(c) ==> 'a' <= r <= 'z' && r as int - c as int == 32
  {
    if IsUpper(c) then (c as int + 32) as char else c
  }

  /**
   * `toLowerCase` on a whole string: same length, no upper-case letter is
   * left, every other character stays where it was, and each upper-case
   * letter becomes its lower-case letter.
   */
  function LowerStr(s: string): (r: string)
    ensures |r| == |s|
    ensures forall i :: 0 <= i < |s| ==> !IsUpper(r[i])
    ensures forall i :: 0 <= i < |s| && !IsUpper(s[i]) ==> r[i] == s[i]
    ensures forall i :: 0 <= i < |s| && IsUpper(s[i]) ==> r[i] as int - s[i] as int == 32
  {
    seq(|s|, i requires 0 <= i < |s| => Lower(s[i]))
  }

  predicate HasPrefix(s: string, p: string) {
    |p| <= |s| && s[..|p|] == p
  }

  /** Number of occurrences of `sep` in `s`. */
  function Occurrences(s: string, sep: char): nat {
    if s == [] then 0 else (if s[0] == sep then 1 else 0) + Occurrences(s[1..], sep)
  }

  /**
   * `s.split(sep)`: the pieces between separators, in order, untrimmed.
   * There is always at least one piece (the empty string splits to `[""]`)
   * and no piece contains the separator.
   */
  function Split(s: string, sep: char): (parts: seq<string>)
    ensures |parts| >= 1
    ensures forall i :: 0 <= i < |parts| ==> sep !in parts[i]
    decreases |s|
  {
    if s == [] then [[]]
    else
      var rest := Split(s[1..], sep);
      if s[0] == sep then [[]] + rest
      else [[s[0]] + rest[0]] + rest[1..]
  }

  /** `parts.join(sep)`. */
  function Join(parts: seq<string>, sep: char): string
    requires |parts| >= 1
    decreases |parts|
  {
    if |parts| == 1 then parts[0] else parts[0] + [sep] + Join(parts[1..], sep)
  }

  /** Joining the pieces back with the separator gives the original string. */
  lemma {:induction false} JoinSplit(s: string, sep: char)
    ensures Join(Split(s, sep), sep) == s
    decreases |s|
  {
    if s != [] {
      var rest := Split(s[1..], sep);
      JoinSplit(s[1..], sep);
      if s[0] == sep {
        assert Split(s, sep) == [[]] + rest;
        calc {
          Join(Split(s, sep), sep);
          [] + [sep] + Join(rest, sep);
          [s[0]] + s[1..];
        }
      } else {
        var parts := Split(s, sep);
        assert parts == [[s[0]] + rest[0]] + rest[1..];
        if |rest| == 1 {
          assert Join(parts, sep) == [s[0]] + rest[0];
        } else {
          assert parts[1..] == rest[1..];
          assert Join(rest, sep) == rest[0] + [sep] + Join(rest[1..], sep);
          assert Join(parts, sep) == [s[0]] + rest[0] + [sep] + Join(rest[1..], sep);
        }
        assert s == [s[0]] + s[1..];
      }
    }
  }

  /** Splitting a join of separator-free pieces gives the pieces back. */
  lemma {:induction false} SplitJoin(parts: seq<string>, sep: char)
    requires |parts| >= 1
    requires forall i :: 0 <= i < |parts| ==> sep !in parts[i]
    ensures Split(Join(parts, sep), sep) == parts
    decreases |parts|, |parts[0]|
  {
    if parts[0] == [] {
      if |parts| > 1 {
        SplitJoin(parts[1..], sep);
        var s := Join(parts, sep);
        assert s == [sep] + Join(parts[1..], sep);
        assert s[1..] == Join(parts[1..], sep);
        assert Split(s, sep) == [[]] + parts[1..];
      }
    } else {
      var p := parts[0];
      var parts' := [p[1..]] + parts[1..];
      assert forall i :: 0 <= i < |parts'| ==> sep !in parts'[i] by {
        forall i | 0 <= i < |parts'| ensures sep !in parts'[i] {
          if i > 0 { assert parts'[i] == parts[i]; }
        }
      }
      SplitJoin(parts', sep);
      var s := Join(parts, sep);
      var s' := Join(parts', sep);
      if |parts| == 1 {
        assert s == [p[0]] + s';
      } else {
        assert parts'[1..] == parts[1..];
        assert s == [p[0]] + s';
      }
      assert s[0] == p[0] && s[0] != sep;
      assert s[1..] == s';
      assert Split(s, sep) == [[p[0]] + p[1..]] + parts[1..];
      assert [p[0]] + p[1..] == p;
    }
  }

  /** One piece per separator, plus one. */
  lemma {:induction false} SplitLength(s: string, sep: char)
    ensures |Split(s, sep)| == Occurrences(s, sep) + 1
    decreases |s|
  {
    if s != [] {
      SplitLength(s[1..], sep);
    }
  }

  /**
   * Splitting on a separator that is not an ASCII letter commutes with
   * lower-casing: lower-casing each piece is lower-casing the whole string.
   */
  lemma {:induction false} SplitLowerStr(s: string, sep: char)
    requires !IsUpper(sep) && !('a' <= sep <= 'z')
    ensures |Split(LowerStr(s), sep)| == |Split(s, sep)|
    ensures forall i :: 0 <= i < |Split(s, sep)| ==>
      Split(LowerStr(s), sep)[i] == LowerStr(Split(s, sep)[i])
    decreases |s|
  {
    if s != [] {
      SplitLowerStr(s[1..], sep);
      var l := LowerStr(s);
      assert l[1..] == LowerStr(s[1..]);
      assert l[0] == sep <==> s[0] == sep;
      var rest := Split(s[1..], sep);
      if s[0] != sep {
        assert LowerStr([s[0]] + rest[0]) == [l[0]] + LowerStr(rest[0]);
      }
    }
  }
}
