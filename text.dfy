/**
 * String helpers shared by the Rust and TypeScript code: trimming, splitting
 * on one character, joining, prefix tests, ASCII lower-casing and global
 * case-insensitive replacement. Strings are sequences of characters.
 */
module Text {
  import opened Seqs

  /** The white space that `trim()` removes, restricted to ASCII. */
  predicate IsSpace(c: char) {
    c == ' ' || c == '\t' || c == '\n' || c == '\r' || c == '\U{000B}' || c == '\U{000C}'
  }

  /** Every character is white space (the string trims to ""). */
  predicate IsBlank(s: string) {
    forall i :: 0 <= i < |s| ==> IsSpace(s[i])
  }

  function TrimStart(s: string): (r: string)
    ensures |r| <= |s| && r == s[|s| - |r|..]
    ensures r == [] || !IsSpace(r[0])
    ensures IsBlank(s[..|s| - |r|])
  {
    if |s| > 0 && IsSpace(s[0]) then TrimStart(s[1..]) else s
  }

  function TrimEnd(s: string): (r: string)
    ensures |r| <= |s| && r == s[..|r|]
    ensures r == [] || !IsSpace(r[|r| - 1])
    ensures IsBlank(s[|r|..])
  {
    if |s| > 0 && IsSpace(s[|s| - 1]) then
      var r := TrimEnd(s[..|s| - 1]);
      assert s[|r|..] == s[..|s| - 1][|r|..] + [s[|s| - 1]];
      r
    else s
  }

  /** `s.trim()`: leading and trailing white space removed. */
  function Trim(s: string): string {
    TrimEnd(TrimStart(s))
  }

  /** `!s.trim()` in JavaScript: the trimmed string is empty exactly for blank strings. */
  lemma TrimEmptyIffBlank(s: string)
    ensures Trim(s) == [] <==> IsBlank(s)
  {
    var t := TrimStart(s);
    var k := |s| - |t|;
    if IsBlank(s) {
      BlankTrimsToEmpty(s);
    }
    if Trim(s) == [] {
      assert t[0..] == t;
      assert t == [];
      forall i | 0 <= i < |s| ensures IsSpace(s[i]) {
        assert s[i] == s[..k][i];
      }
    }
  }

  lemma {:induction false} BlankTrimsToEmpty(s: string)
    requires IsBlank(s)
    ensures TrimStart(s) == []
  {
    if |s| > 0 {
      BlankTrimsToEmpty(s[1..]);
    }
  }

  /** Trimming keeps a string blank or non-blank: a trimmed non-blank string starts with a non-space. */
  lemma TrimBlankIffBlank(s: string)
    ensures IsBlank(Trim(s)) <==> IsBlank(s)
  {
    TrimEmptyIffBlank(s);
    var u := TrimStart(s);
    var r := TrimEnd(u);
    if r != [] {
      assert r[0] == u[0];
    }
  }

  /**
   * Trimming keeps a prefix that neither starts nor ends with white space,
   * such as a URL scheme.
   */
  lemma TrimKeepsPrefix(s: string, prefix: string)
    requires prefix != [] && !IsSpace(prefix[0]) && !IsSpace(prefix[|prefix| - 1])
    requires StartsWith(s, prefix)
    ensures StartsWith(Trim(s), prefix)
  {
    assert s[0] == prefix[0];
    assert TrimStart(s) == s;
  }

  predicate StartsWith(s: string, prefix: string) {
    |prefix| <= |s| && s[..|prefix|] == prefix
  }

  function Lower(c: char): (r: char)
    ensures 'A' <= c <= 'Z' ==> r as int == c as int + 32
    ensures !('A' <= c <= 'Z') ==> r == c
  {
    if 'A' <= c <= 'Z' then (c as int + 32) as char else c
  }

  /** `toLowerCase()` on ASCII letters; every other character is kept. */
  function LowerStr(s: string): (r: string)
    ensures |r| == |s|
    ensures forall i :: 0 <= i < |s| ==> r[i] == Lower(s[i])
  {
    seq(|s|, i requires 0 <= i < |s| => Lower(s[i]))
  }

  lemma LowerStrAppend(a: string, b: string)
    ensures LowerStr(a + b) == LowerStr(a) + LowerStr(b)
  {
  }

  /** `s.split(sep)` for a one-character separator: never empty, pieces hold no separator. */
  function Split(s: string, sep: char): (r: seq<string>)
    ensures |r| >= 1
    ensures forall i :: 0 <= i < |r| ==> sep !in r[i]
  {
    if |s| == 0 then [""]
    else
      var rest := Split(s[1..], sep);
      if s[0] == sep then [""] + rest
      else [[s[0]] + rest[0]] + rest[1..]
  }

  /** `pieces.join(sep)` for a one-character separator. */
  function Join(pieces: seq<string>, sep: char): string
    requires |pieces| >= 1
  {
    if |pieces| == 1 then pieces[0] else pieces[0] + [sep] + Join(pieces[1..], sep)
  }

  /** `s.split(sep).join(sep) == s`. */
  lemma {:induction false} JoinSplit(s: string, sep: char)
    ensures Join(Split(s, sep), sep) == s
  {
    if |s| > 0 {
      JoinSplit(s[1..], sep);
      var rest := Split(s[1..], sep);
      if s[0] != sep {
        if |rest| > 1 {
          assert Split(s, sep)[1..] == rest[1..];
        }
      }
    }
  }

  /** Splitting a join of separator-free pieces gives the pieces back. */
  lemma {:induction false} SplitJoin(pieces: seq<string>, sep: char)
    requires |pieces| >= 1
    requires forall i :: 0 <= i < |pieces| ==> sep !in pieces[i]
    ensures Split(Join(pieces, sep), sep) == pieces
  {
    if |pieces| == 1 {
      SplitNoSep(pieces[0], sep);
    } else {
      SplitJoin(pieces[1..], sep);
      SplitPrefix(pieces[0], Join(pieces[1..], sep), sep);
      assert [pieces[0]] + pieces[1..] == pieces;
    }
  }

  lemma {:induction false} SplitNoSep(s: string, sep: char)
    requires sep !in s
    ensures Split(s, sep) == [s]
  {
    if |s| > 0 {
      assert s[0] in s;
      SplitNoSep(s[1..], sep);
      assert [s[0]] + s[1..] == s;
    }
  }

  lemma {:induction false} SplitPrefix(a: string, b: string, sep: char)
    requires sep !in a
    ensures Split(a + [sep] + b, sep) == [a] + Split(b, sep)
  {
    if |a| == 0 {
      assert a + [sep] + b == [sep] + b;
      assert ([sep] + b)[1..] == b;
    } else {
      var s := a + [sep] + b;
      assert s[0] == a[0] && s[1..] == a[1..] + [sep] + b;
      SplitPrefix(a[1..], b, sep);
      var rest := Split(s[1..], sep);
      assert rest[0] == a[1..] && rest[1..] == Split(b, sep);
      assert [a[0]] + a[1..] == a;
    }
  }

  /** The join of a list ends with the separator followed by its last piece. */
  lemma {:induction false} JoinLast(pieces: seq<string>, sep: char)
    requires |pieces| >= 2
    ensures Join(pieces, sep) == Join(pieces[..|pieces| - 1], sep) + [sep] + pieces[|pieces| - 1]
  {
    if |pieces| > 2 {
      JoinLast(pieces[1..], sep);
      assert pieces[1..][..|pieces| - 2] == pieces[..|pieces| - 1][1..];
    }
  }

  /**
   * The last piece of a split is the text after the last separator: it is a
   * suffix of `s`, holds no separator, and is preceded by a separator
   * whenever it is not the whole string.
   */
  lemma LastPieceIsTail(s: string, sep: char)
    ensures var t := Split(s, sep)[|Split(s, sep)| - 1];
      |t| <= |s| && t == s[|s| - |t|..] && sep !in t && (|t| < |s| ==> s[|s| - |t| - 1] == sep)
  {
    var ps := Split(s, sep);
    JoinSplit(s, sep);
    var t := ps[|ps| - 1];
    if |ps| >= 2 {
      JoinLast(ps, sep);
      var front := Join(ps[..|ps| - 1], sep);
      assert s == front + [sep] + t;
      assert s[|s| - |t|..] == t;
      assert s[|s| - |t| - 1] == sep;
    }
  }

  /**
   * `s.replace(/pat/gi, rep)`: every non-overlapping occurrence of `pat`,
   * compared case-insensitively, replaced from left to right.
   */
  function ReplaceAll(s: string, pat: string, rep: string): string
    requires |pat| > 0
    decreases |s|
  {
    if |s| < |pat| then s
    else if LowerStr(s[..|pat|]) == LowerStr(pat) then rep + ReplaceAll(s[|pat|..], pat, rep)
    else [s[0]] + ReplaceAll(s[1..], pat, rep)
  }

  /** `pat` occurs in `s`, compared case-insensitively. */
  predicate ContainsIgnoreCase(s: string, pat: string)
    decreases |s|
  {
    |pat| <= |s| && (LowerStr(s[..|pat|]) == LowerStr(pat) || (|s| > 0 && ContainsIgnoreCase(s[1..], pat)))
  }

  /** Replacing a pattern that does not occur leaves the string unchanged. */
  lemma {:induction false} ReplaceAbsent(s: string, pat: string, rep: string)
    requires |pat| > 0 && !ContainsIgnoreCase(s, pat)
    ensures ReplaceAll(s, pat, rep) == s
  {
    if |s| >= |pat| {
      ReplaceAbsent(s[1..], pat, rep);
      assert [s[0]] + s[1..] == s;
    }
  }

  /** No character of `pat` matches `c` once both are lower-cased. */
  predicate Unmatched(pat: string, c: char) {
    forall i :: 0 <= i < |pat| ==> Lower(pat[i]) != Lower(c)
  }

  /**
   * A character the pattern cannot match splits the replacement: no
   * occurrence straddles it, so both sides are replaced on their own.
   */
  lemma {:induction false} ReplaceSplits(a: string, c: char, b: string, pat: string, rep: string)
    requires |pat| > 0 && Unmatched(pat, c)
    ensures ReplaceAll(a + [c] + b, pat, rep) == ReplaceAll(a, pat, rep) + [c] + ReplaceAll(b, pat, rep)
    decreases |a|
  {
    var s := a + [c] + b;
    var n := |pat|;
    if |s| < n {
      assert ReplaceAll(a, pat, rep) == a && ReplaceAll(b, pat, rep) == b;
    } else if a == [] {
      assert s == [c] + b && s[1..] == b;
      assert LowerStr(s[..n])[0] != LowerStr(pat)[0];
    } else if n > |a| {
      Straddles(a, c, b, pat);
      assert s[1..] == a[1..] + [c] + b;
      ReplaceSplits(a[1..], c, b, pat, rep);
      assert ReplaceAll(a[1..], pat, rep) == a[1..];
      assert [a[0]] + a[1..] == a;
      Assoc([a[0]], ReplaceAll(a[1..], pat, rep) + [c], ReplaceAll(b, pat, rep));
      Assoc([a[0]], ReplaceAll(a[1..], pat, rep), [c]);
    } else if LowerStr(s[..n]) == LowerStr(pat) {
      assert s[..n] == a[..n];
      assert s[n..] == a[n..] + [c] + b;
      ReplaceSplits(a[n..], c, b, pat, rep);
      Assoc(rep, ReplaceAll(a[n..], pat, rep) + [c], ReplaceAll(b, pat, rep));
      Assoc(rep, ReplaceAll(a[n..], pat, rep), [c]);
    } else {
      assert s[1..] == a[1..] + [c] + b;
      ReplaceSplits(a[1..], c, b, pat, rep);
      assert s[..n] == a[..n];
      Assoc([a[0]], ReplaceAll(a[1..], pat, rep) + [c], ReplaceAll(b, pat, rep));
      Assoc([a[0]], ReplaceAll(a[1..], pat, rep), [c]);
    }
  }

  /** A pattern with a letter that `s` lacks, ignoring case, occurs nowhere in `s`. */
  lemma {:induction false} LetterMissing(s: string, pat: string, k: nat)
    requires k < |pat| && forall i :: 0 <= i < |s| ==> Lower(s[i]) != Lower(pat[k])
    ensures !ContainsIgnoreCase(s, pat)
    decreases |s|
  {
    if |pat| <= |s| {
      assert LowerStr(s[..|pat|])[k] == Lower(s[k]);
      assert forall i :: 0 <= i < |s[1..]| ==> s[1..][i] == s[i + 1];
      LetterMissing(s[1..], pat, k);
    }
  }

  /** A string that is the pattern, ignoring case, is replaced whole. */
  lemma ReplaceWhole(s: string, pat: string, rep: string)
    requires |pat| > 0 && LowerStr(s) == LowerStr(pat)
    ensures ReplaceAll(s, pat, rep) == rep
  {
    assert s[..|pat|] == s && s[|pat|..] == [];
  }

  /** A window that reaches the unmatched character is no occurrence. */
  lemma Straddles(a: string, c: char, b: string, pat: string)
    requires Unmatched(pat, c) && |a| < |pat| <= |a| + 1 + |b|
    ensures LowerStr((a + [c] + b)[..|pat|]) != LowerStr(pat)
  {
    assert LowerStr((a + [c] + b)[..|pat|])[|a|] == Lower(c);
  }

  /** `s.contains(pat)`: `pat` occurs in `s` at some position. */
  predicate Contains(s: string, pat: string)
    decreases |s|
  {
    StartsWith(s, pat) || (|s| > 0 && Contains(s[1..], pat))
  }

  /** `pat` occurs in `s` starting at position `i`. */
  predicate OccursAt(s: string, pat: string, i: nat) {
    i + |pat| <= |s| && s[i..i + |pat|] == pat
  }

  /** `Contains` finds exactly the positions where `pat` occurs. */
  lemma {:induction false} ContainsIffOccurs(s: string, pat: string)
    ensures Contains(s, pat) <==> exists i: nat :: OccursAt(s, pat, i)
    decreases |s|
  {
    if Contains(s, pat) {
      if StartsWith(s, pat) {
        assert OccursAt(s, pat, 0);
      } else {
        ContainsIffOccurs(s[1..], pat);
        var i: nat :| OccursAt(s[1..], pat, i);
        assert s[1..][i..i + |pat|] == s[i + 1..i + 1 + |pat|];
        assert OccursAt(s, pat, i + 1);
      }
    }
    if exists i: nat :: OccursAt(s, pat, i) {
      var i: nat :| OccursAt(s, pat, i);
      if i > 0 {
        assert s[1..][i - 1..i - 1 + |pat|] == s[i..i + |pat|];
        assert OccursAt(s[1..], pat, i - 1);
        ContainsIffOccurs(s[1..], pat);
      }
    }
  }
}
