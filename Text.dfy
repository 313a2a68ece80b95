/**
 * The string operations the board relies on: `trim`, `toLowerCase`, `includes`
 * and `split('\n')`, over an explicit ASCII character set.
 */
module Text {

  /** ASCII whitespace: space, tab, line feed, vertical tab, form feed, carriage return. */
  predicate IsSpace(c: char) {
    c == ' ' || '\t' <= c <= '\r'
  }

  /** A string made only of whitespace (the empty string included). */
  predicate IsBlank(s: string) {
    forall k :: 0 <= k < |s| ==> IsSpace(s[k])
  }

  /** The index of the first non-whitespace character at or after `from`, or `|s|`. */
  function VisibleStart(s: string, from: nat): (a: nat)
    requires from <= |s|
    ensures from <= a <= |s|
    ensures forall k :: from <= k < a ==> IsSpace(s[k])
    ensures a == |s| || !IsSpace(s[a])
    decreases |s| - from
  {
    if from < |s| && IsSpace(s[from]) then VisibleStart(s, from + 1) else from
  }

  /** One past the last non-whitespace character before `to`, or 0. */
  function VisibleEnd(s: string, to: nat): (b: nat)
    requires to <= |s|
    ensures b <= to
    ensures forall k :: b <= k < to ==> IsSpace(s[k])
    ensures b == 0 || !IsSpace(s[b - 1])
  {
    if to > 0 && IsSpace(s[to - 1]) then VisibleEnd(s, to - 1) else to
  }

  /** JavaScript's `String.prototype.trim`, on ASCII whitespace. */
  function Trim(s: string): (r: string)
    ensures |r| <= |s|
    ensures r == [] <==> IsBlank(s)
    ensures r != [] ==> !IsSpace(r[0]) && !IsSpace(r[|r| - 1])
    ensures exists a :: OccursAt(s, r, a) && IsBlank(s[..a]) && IsBlank(s[a + |r|..])
  {
    var a := VisibleStart(s, 0);
    var b := VisibleEnd(s, |s|);
    if a < b then
      assert OccursAt(s, s[a..b], a) && IsBlank(s[..a]) && IsBlank(s[b..]);
      s[a..b]
    else
      assert OccursAt(s, [], 0) && IsBlank(s[..0]) && IsBlank(s[0..]) by {
        assert s[..0] == [] && s[0..] == s;
      }
      []
  }

  /** The trimmed string is a contiguous piece of the original. */
  lemma TrimOccurs(s: string)
    ensures exists i :: OccursAt(s, Trim(s), i)
  {
    var a := VisibleStart(s, 0);
    if a < VisibleEnd(s, |s|) {
      assert OccursAt(s, Trim(s), a);
    } else {
      assert OccursAt(s, Trim(s), 0);
    }
  }

  /** Trimming a string that starts with a visible character keeps that character first. */
  lemma TrimKeepsFirst(s: string)
    requires s != [] && !IsSpace(s[0])
    ensures Trim(s) != [] && Trim(s)[0] == s[0]
  {
    assert VisibleStart(s, 0) == 0;
  }

  /** Trimming twice is trimming once. */
  lemma {:induction false} TrimIdempotent(s: string)
    ensures Trim(Trim(s)) == Trim(s)
  {
    var r := Trim(s);
    if r != [] {
      assert VisibleStart(r, 0) == 0;
      assert VisibleEnd(r, |r|) == |r|;
    }
  }

  /** A non-empty blank prefix starts with whitespace. */
  lemma BlankPrefixStartsWithSpace(s: string, a: int)
    requires 0 <= a <= |s| && IsBlank(s[..a])
    ensures a == 0 || IsSpace(s[0])
  {
    if a > 0 {
      assert s[..a][0] == s[0];
    }
  }

  /** A trimmed string that is not empty is itself not blank. */
  lemma TrimmedNotBlank(s: string)
    requires Trim(s) != []
    ensures !IsBlank(Trim(s))
  {
    TrimIdempotent(s);
  }

  /** ASCII lower-casing of one character. */
  function LowerChar(c: char): char {
    if 'A' <= c <= 'Z' then (c as int + 32) as char else c
  }

  /** `String.prototype.toLowerCase`, on ASCII letters. */
  function ToLower(s: string): (r: string)
    ensures |r| == |s|
    ensures forall k :: 0 <= k < |s| ==> r[k] == LowerChar(s[k])
    ensures forall k :: 0 <= k < |r| ==> !('A' <= r[k] <= 'Z')
  {
    seq(|s|, k requires 0 <= k < |s| => LowerChar(s[k]))
  }

  lemma ToLowerIdempotent(s: string)
    ensures ToLower(ToLower(s)) == ToLower(s)
  {
    var once := ToLower(s);
    var twice := ToLower(once);
    assert forall k :: 0 <= k < |once| ==> twice[k] == once[k];
  }

  /** `sub` occurs in `s` at index `i`. */
  predicate OccursAt(s: string, sub: string, i: int) {
    0 <= i <= |s| - |sub| && s[i..i + |sub|] == sub
  }

  /** `String.prototype.includes`: `sub` occurs somewhere in `s`. */
  predicate Contains(s: string, sub: string) {
    exists i | 0 <= i <= |s| - |sub| :: OccursAt(s, sub, i)
  }

  /** A piece of a suffix of `s` is a piece of `s`. */
  lemma OccursInSuffix(s: string, a: nat, t: string, i: int)
    requires a <= |s| && OccursAt(s[a..], t, i)
    ensures OccursAt(s, t, a + i)
  {
    assert s[a..][i..i + |t|] == s[a + i..a + i + |t|];
  }

  /** A piece of a string without line feeds has none either. */
  lemma NoLineFeedInPiece(s: string, t: string, i: int)
    requires OccursAt(s, t, i) && '\n' !in s
    ensures '\n' !in t
  {
    forall k | 0 <= k < |t| ensures t[k] != '\n' {
      assert t[k] == s[i + k];
    }
  }

  /** `sub` cannot occur where one of its characters is missing. */
  lemma MissingCharNotContained(s: string, sub: string, c: char)
    requires c in sub && c !in s
    ensures !Contains(s, sub)
  {
    var k :| 0 <= k < |sub| && sub[k] == c;
    forall i | 0 <= i <= |s| - |sub| ensures !OccursAt(s, sub, i) {
      assert s[i..i + |sub|][k] == s[i + k] != c;
    }
  }

  /** `s.split('\n')`: the pieces between line feeds, always at least one. */
  function SplitLines(s: string): (r: seq<string>)
    ensures |r| >= 1
    ensures forall i :: 0 <= i < |r| ==> '\n' !in r[i]
  {
    if s == [] then [""]
    else
      var rest := SplitLines(s[1..]);
      if s[0] == '\n' then [""] + rest
      else [[s[0]] + rest[0]] + rest[1..]
  }

  /** Text without a line feed is one line. */
  lemma {:induction false} SplitSingleLine(s: string)
    requires '\n' !in s
    ensures SplitLines(s) == [s]
  {
    if s != [] {
      assert s[0] in s;
      SplitSingleLine(s[1..]);
      assert [s[0]] + s[1..] == s;
    }
  }

  /** Splitting at a line feed splits the two sides separately. */
  lemma {:induction false} SplitAtLineFeed(a: string, b: string)
    requires '\n' !in a
    ensures SplitLines(a + "\n" + b) == [a] + SplitLines(b)
  {
    if a == [] {
      assert a + "\n" + b == "\n" + b;
      assert ("\n" + b)[1..] == b;
    } else {
      assert (a + "\n" + b)[1..] == a[1..] + "\n" + b;
      SplitAtLineFeed(a[1..], b);
      assert [a[0]] + a[1..] == a;
    }
  }

  /** `lines.join('\n')`. */
  function JoinLines(lines: seq<string>): (r: string)
    requires |lines| >= 1
  {
    if |lines| == 1 then lines[0] else lines[0] + "\n" + JoinLines(lines[1..])
  }

  /** Splitting loses nothing: joining the pieces gives the text back. */
  lemma {:induction false} SplitJoin(s: string)
    ensures JoinLines(SplitLines(s)) == s
  {
    if s != [] {
      var rest := SplitLines(s[1..]);
      SplitJoin(s[1..]);
      if s[0] == '\n' {
        assert SplitLines(s)[1..] == rest;
      } else {
        var r := SplitLines(s);
        if |rest| == 1 {
          assert r == [[s[0]] + rest[0]];
        } else {
          assert r[1..] == rest[1..];
          assert JoinLines(rest) == rest[0] + "\n" + JoinLines(rest[1..]);
        }
      }
    }
  }
}
