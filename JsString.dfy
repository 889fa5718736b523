/** The JavaScript string built-ins the core relies on, as pure functions:
    `startsWith`, `trimStart` (alias `trimLeft`) and `split(" ")`. */
module JsString {

  /** `s.startsWith(prefix)`. */
  predicate StartsWith(s: string, prefix: string) {
    |prefix| <= |s| && s[..|prefix|] == prefix
  }

  /** The characters `trimStart` removes: the WhiteSpace and LineTerminator
      code points of ECMAScript (section 12.2 and 12.3 of ECMA-262). */
  predicate IsWhiteSpace(c: char) {
    || c == '\t' || c == '\n' || c == '\U{000B}' || c == '\U{000C}' || c == '\r'
    || c == ' ' || c == '\U{00A0}' || c == '\U{1680}'
    || ('\U{2000}' <= c <= '\U{200A}')
    || c == '\U{2028}' || c == '\U{2029}' || c == '\U{202F}' || c == '\U{205F}'
    || c == '\U{3000}' || c == '\U{FEFF}'
  }

  /** `s.trimStart()`: what is left once the leading white space is removed. */
  function TrimStart(s: string): (r: string)
    ensures |r| <= |s| && r == s[|s| - |r|..]
    ensures forall i :: 0 <= i < |s| - |r| ==> IsWhiteSpace(s[i])
    ensures r != [] ==> !IsWhiteSpace(r[0])
  {
    if s != [] && IsWhiteSpace(s[0]) then TrimStart(s[1..]) else s
  }

  /** The number of spaces in `s`. */
  function SpaceCount(s: string): (r: nat) {
    if s == [] then 0 else (if s[0] == ' ' then 1 else 0) + SpaceCount(s[1..])
  }

  /** `s.split(" ")`: the pieces of `s` between single spaces. Two adjacent
      spaces give an empty piece, and `""` splits into `[""]`. */
  function Split(s: string): (pieces: seq<string>)
    ensures |pieces| == SpaceCount(s) + 1
    ensures forall i :: 0 <= i < |pieces| ==> ' ' !in pieces[i]
  {
    if s == [] then [""]
    else
      var rest := Split(s[1..]);
      if s[0] == ' ' then [""] + rest
      else [[s[0]] + rest[0]] + rest[1..]
  }

  /** `pieces.join(" ")`. */
  function Join(pieces: seq<string>): (r: string)
    requires |pieces| >= 1
  {
    if |pieces| == 1 then pieces[0] else pieces[0] + " " + Join(pieces[1..])
  }

  /** A string has a space exactly when splitting it gives more than one piece. */
  lemma {:induction false} SpaceCountPositive(s: string)
    ensures SpaceCount(s) > 0 <==> ' ' in s
  {
    if s != [] {
      SpaceCountPositive(s[1..]);
      assert s == [s[0]] + s[1..];
    }
  }

  /** Joining the pieces of a split with single spaces gives back the string. */
  lemma {:induction false} JoinSplit(s: string)
    ensures Join(Split(s)) == s
  {
    if s != [] {
      var rest := Split(s[1..]);
      JoinSplit(s[1..]);
      if s[0] == ' ' {
        assert Split(s)[1..] == rest;
      } else if |rest| == 1 {
        assert Join(Split(s)) == [s[0]] + rest[0];
      } else {
        assert Split(s)[1..] == rest[1..];
        assert Join(rest) == rest[0] + " " + Join(rest[1..]);
        assert Join(Split(s)) == ([s[0]] + rest[0]) + " " + Join(rest[1..]);
      }
    }
  }

  /** A string without spaces is its own single piece. */
  lemma {:induction false} SplitWord(w: string)
    requires ' ' !in w
    ensures Split(w) == [w]
  {
    if w != [] {
      SplitWord(w[1..]);
      assert [w[0]] + w[1..] == w;
    }
  }

  /** Splitting `w + " " + t` for a word `w` gives `w` followed by the pieces of `t`. */
  lemma {:induction false} SplitWordThenSpace(w: string, t: string)
    requires ' ' !in w
    ensures Split(w + " " + t) == [w] + Split(t)
  {
    var s := w + " " + t;
    if w == [] {
      assert s[1..] == t;
    } else {
      assert s[1..] == w[1..] + " " + t;
      SplitWordThenSpace(w[1..], t);
      assert [w[0]] + w[1..] == w;
    }
  }

  /** Splitting pieces joined with single spaces gives back the pieces,
      provided no piece contains a space. */
  lemma {:induction false} SplitJoin(pieces: seq<string>)
    requires |pieces| >= 1
    requires forall i :: 0 <= i < |pieces| ==> ' ' !in pieces[i]
    ensures Split(Join(pieces)) == pieces
  {
    if |pieces| == 1 {
      SplitWord(pieces[0]);
    } else {
      SplitJoin(pieces[1..]);
      SplitWordThenSpace(pieces[0], Join(pieces[1..]));
      assert [pieces[0]] + pieces[1..] == pieces;
    }
  }

  /** The first piece is the longest space-free prefix: it is followed by a
      space, or it is the whole string. */
  lemma {:induction false} FirstPieceIsPrefix(s: string)
    ensures var f := Split(s)[0];
      && |f| <= |s| && s[..|f|] == f
      && (|f| < |s| ==> s[|f|] == ' ')
  {
    if s != [] && s[0] != ' ' {
      FirstPieceIsPrefix(s[1..]);
    }
  }

  /** The last piece of a split with at least two pieces is the longest
      space-free suffix, and a space stands right before it. */
  lemma {:induction false} LastPieceIsSuffix(s: string)
    requires |Split(s)| > 1
    ensures var pieces := Split(s); var l := pieces[|pieces| - 1];
      && |l| < |s| && s[|s| - |l|..] == l && s[|s| - |l| - 1] == ' '
  {
    var rest := Split(s[1..]);
    var pieces := Split(s);
    if s[0] == ' ' {
      assert pieces[|pieces| - 1] == rest[|rest| - 1];
      if |rest| > 1 {
        LastPieceIsSuffix(s[1..]);
      } else {
        SpaceCountPositive(s[1..]);
        SplitWord(s[1..]);
      }
    } else {
      assert |rest| > 1;
      assert pieces[|pieces| - 1] == rest[|rest| - 1];
      LastPieceIsSuffix(s[1..]);
    }
  }
}
