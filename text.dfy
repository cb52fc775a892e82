/** The string operations of Python's str that the reader relies on:
    whitespace as str.isspace defines it, strip() == '', lstrip(), split()
    with no separator, startswith() and replace(). */
module Text {

  /** str.isspace for a single character. */
  predicate IsSpace(c: char) {
    var n := c as int;
    || (9 <= n <= 13) || (28 <= n <= 32) || n == 0x85 || n == 0xA0 || n == 0x1680
    || (0x2000 <= n <= 0x200A) || n == 0x2028 || n == 0x2029 || n == 0x202F
    || n == 0x205F || n == 0x3000
  }

  /** s.strip() == '' */
  predicate IsBlank(s: string) {
    forall i | 0 <= i < |s| :: IsSpace(s[i])
  }

  /** s.startswith(p) */
  predicate StartsWith(s: string, p: string) {
    |p| <= |s| && s[..|p|] == p
  }

  /** s.lstrip(): s without its leading whitespace. */
  function Lstrip(s: string): (r: string)
    ensures |r| <= |s| && r == s[|s| - |r|..]
    ensures r == [] || !IsSpace(r[0])
    ensures IsBlank(s[..|s| - |r|])
  {
    if s != [] && IsSpace(s[0]) then
      var r := Lstrip(s[1..]);
      assert forall i | 1 <= i < |s| - |r| :: s[i] == s[1..][i - 1];
      assert IsBlank(s[..|s| - |r|]) by {
        forall i | 0 <= i < |s| - |r| ensures IsSpace(s[i]) {
          if i > 0 {
            assert s[1..][..|s[1..]| - |r|][i - 1] == s[i];
          }
        }
      }
      r
    else
      s
  }

  /** Length of the run of non-whitespace characters that starts s. */
  function WordLength(s: string): (n: nat)
    ensures n <= |s|
    ensures forall i | 0 <= i < n :: !IsSpace(s[i])
    ensures n < |s| ==> IsSpace(s[n])
  {
    if s == [] || IsSpace(s[0]) then 0 else 1 + WordLength(s[1..])
  }

  /** s.split() with no separator: the maximal runs of non-whitespace,
      in order. */
  function Split(s: string): (r: seq<string>)
    ensures forall t <- r :: IsWord(t)
    ensures r == [] <==> IsBlank(s)
    decreases |s|
  {
    if s == [] then []
    else if IsSpace(s[0]) then
      var r := Split(s[1..]);
      assert IsBlank(s[1..]) <==> IsBlank(s) by {
        assert forall i | 1 <= i < |s| :: s[i] == s[1..][i - 1];
      }
      r
    else
      var n := WordLength(s);
      [s[..n]] + Split(s[n..])
  }

  /** Words joined by single spaces, the inverse of Split for words that
      are non-empty and hold no whitespace. */
  function JoinWords(ws: seq<string>): string {
    if ws == [] then "" else if |ws| == 1 then ws[0] else ws[0] + " " + JoinWords(ws[1..])
  }

  predicate IsWord(w: string) {
    w != [] && forall j | 0 <= j < |w| :: !IsSpace(w[j])
  }

  lemma {:induction false} WordLengthOfWord(w: string, rest: string)
    requires IsWord(w)
    requires rest == [] || IsSpace(rest[0])
    ensures WordLength(w + rest) == |w|
    decreases |w|
  {
    var s := w + rest;
    if |w| > 1 {
      assert s[1..] == w[1..] + rest;
      WordLengthOfWord(w[1..], rest);
    } else {
      assert s[1..] == rest;
    }
  }

  /** A word followed by whitespace splits into that word and the rest. */
  lemma SplitWord(w: string, rest: string)
    requires IsWord(w) && (rest == [] || IsSpace(rest[0]))
    ensures Split(w + rest) == [w] + Split(rest)
  {
    var s := w + rest;
    WordLengthOfWord(w, rest);
    assert s[..|w|] == w && s[|w|..] == rest;
  }

  /** split() gives back the words that were joined with single spaces. */
  lemma {:induction false} SplitJoinWords(ws: seq<string>)
    requires forall w <- ws :: IsWord(w)
    ensures Split(JoinWords(ws)) == ws
    decreases |ws|
  {
    if |ws| == 1 {
      SplitWord(ws[0], "");
      assert ws[0] + "" == ws[0];
    } else if |ws| > 1 {
      var tail := JoinWords(ws[1..]);
      assert JoinWords(ws) == ws[0] + (" " + tail);
      SplitWord(ws[0], " " + tail);
      assert (" " + tail)[1..] == tail;
      SplitJoinWords(ws[1..]);
      assert [ws[0]] + ws[1..] == ws;
    }
  }

  /** pat occurs in s starting at index i. */
  predicate OccursAt(s: string, pat: string, i: nat) {
    i + |pat| <= |s| && s[i..i + |pat|] == pat
  }

  /** pat occurs somewhere in s. */
  ghost predicate Occurs(s: string, pat: string) {
    exists i: nat :: OccursAt(s, pat, i)
  }

  /** s.replace(pat, rep): every non-overlapping occurrence of pat, scanning
      from the left, replaced by rep. */
  function ReplaceAll(s: string, pat: string, rep: string): string
    requires pat != []
    decreases |s|
  {
    if |s| < |pat| then s
    else if s[..|pat|] == pat then rep + ReplaceAll(s[|pat|..], pat, rep)
    else [s[0]] + ReplaceAll(s[1..], pat, rep)
  }

  /** A string with no occurrence of pat is left as it is. */
  lemma {:induction false} ReplaceAllAbsent(s: string, pat: string, rep: string)
    requires pat != [] && !Occurs(s, pat)
    ensures ReplaceAll(s, pat, rep) == s
    decreases |s|
  {
    if |s| >= |pat| {
      assert s[0..0 + |pat|] == s[..|pat|];
      assert !OccursAt(s, pat, 0);
      assert !Occurs(s[1..], pat) by {
        forall i: nat | OccursAt(s[1..], pat, i)
          ensures false
        {
          assert s[1..][i..i + |pat|] == s[i + 1..i + 1 + |pat|];
          assert OccursAt(s, pat, i + 1);
        }
      }
      ReplaceAllAbsent(s[1..], pat, rep);
      assert [s[0]] + s[1..] == s;
    }
  }

  /** A leading occurrence of pat is replaced, and the scan goes on after it. */
  lemma ReplaceAllLeading(pat: string, rest: string, rep: string)
    requires pat != []
    ensures ReplaceAll(pat + rest, pat, rep) == rep + ReplaceAll(rest, pat, rep)
  {
    var s := pat + rest;
    assert s[..|pat|] == pat && s[|pat|..] == rest;
  }
}
