/**
 The fragment of JavaScript regular expressions used by the upload filter:
 literal words, alternation and concatenation, tested with `RegExp.test`
 against a pattern that carries the start anchor `^` and no end anchor.
 Matching is given operationally (`Ends`) and denotationally (`Lang`), and
 the two are proved to agree.
 */
module Regex {

  /** A pattern built from literal words, `a|b` and `ab`. Capturing groups
      do not change what a pattern accepts and are not represented. */
  datatype Regex =
    | Lit(word: string)
    | Alt(left: Regex, right: Regex)
    | Cat(first: Regex, second: Regex)

  /** The positions `j` such that `r` matches `s[i..j]`. */
  function Ends(r: Regex, s: string, i: nat): (ends: set<nat>)
    requires i <= |s|
    ensures forall j :: j in ends ==> i <= j <= |s|
    decreases r
  {
    match r
    case Lit(w) => if w <= s[i..] then {i + |w|} else {}
    case Alt(a, b) => Ends(a, s, i) + Ends(b, s, i)
    case Cat(a, b) => set j, k | j in Ends(a, s, i) && k in Ends(b, s, j) :: k
  }

  /** The words a pattern denotes. */
  function Lang(r: Regex): set<string>
    decreases r
  {
    match r
    case Lit(w) => {w}
    case Alt(a, b) => Lang(a) + Lang(b)
    case Cat(a, b) => set u, v | u in Lang(a) && v in Lang(b) :: u + v
  }

  /** `/^r/.test(s)`: the pattern matches some prefix of `s`. */
  predicate TestAnchored(r: Regex, s: string) {
    Ends(r, s, 0) != {}
  }

  /** `/r/.test(s)`: the pattern matches somewhere in `s`. */
  predicate TestUnanchored(r: Regex, s: string) {
    exists i :: 0 <= i <= |s| && Ends(r, s, i) != {}
  }

  /** The matcher is correct: it stops at `j` exactly when the text between
      `i` and `j` is a word of the pattern's language. */
  lemma {:induction false} EndsIffLang(r: Regex, s: string, i: nat, j: nat)
    requires i <= j <= |s|
    ensures j in Ends(r, s, i) <==> s[i..j] in Lang(r)
    decreases r
  {
    match r
    case Lit(w) =>
      if s[i..j] == w {
        assert w == s[i..][..j - i];
      }
    case Alt(a, b) =>
      EndsIffLang(a, s, i, j);
      EndsIffLang(b, s, i, j);
    case Cat(a, b) =>
      if j in Ends(r, s, i) {
        var m :| m in Ends(a, s, i) && j in Ends(b, s, m);
        EndsIffLang(a, s, i, m);
        EndsIffLang(b, s, m, j);
        assert s[i..j] == s[i..m] + s[m..j];
      }
      if s[i..j] in Lang(r) {
        var u, v :| u in Lang(a) && v in Lang(b) && s[i..j] == u + v;
        var m := i + |u|;
        assert s[i..m] == (u + v)[..|u|] == u;
        assert s[m..j] == (u + v)[|u|..] == v;
        EndsIffLang(a, s, i, m);
        EndsIffLang(b, s, m, j);
      }
  }

  /** An anchored test accepts `s` exactly when some word of the pattern's
      language is a prefix of `s`. */
  lemma TestAnchoredIffPrefix(r: Regex, s: string)
    ensures TestAnchored(r, s) <==> exists w :: w in Lang(r) && w <= s
  {
    if TestAnchored(r, s) {
      var j :| j in Ends(r, s, 0);
      EndsIffLang(r, s, 0, j);
      assert s[0..j] in Lang(r) && s[0..j] <= s;
    }
    if w :| w in Lang(r) && w <= s {
      EndsIffLang(r, s, 0, |w|);
      assert s[0..|w|] == w;
    }
  }

  /** An unanchored test accepts `s` exactly when some word of the
      pattern's language occurs in `s` at some position. */
  lemma TestUnanchoredIffInfix(r: Regex, s: string)
    ensures TestUnanchored(r, s) <==> exists i, w :: 0 <= i <= |s| && w in Lang(r) && w <= s[i..]
  {
    if TestUnanchored(r, s) {
      var i :| 0 <= i <= |s| && Ends(r, s, i) != {};
      var j :| j in Ends(r, s, i);
      EndsIffLang(r, s, i, j);
      assert s[i..j] <= s[i..];
    }
    if i, w :| 0 <= i <= |s| && w in Lang(r) && w <= s[i..] {
      EndsIffLang(r, s, i, i + |w|);
      assert s[i..i + |w|] == w;
    }
  }
}
