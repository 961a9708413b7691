/** The string operations of the .NET base library that the shell relies on:
    `String.Split(params char[])`, `String.Trim` and `String.ToLower`. */
module Text {

  /** True when no character of `s` is one of `chars`. */
  predicate NoneIn(s: string, chars: set<char>) {
    forall i :: 0 <= i < |s| ==> s[i] !in chars
  }

  /** `s.Split(seps)`: the pieces of `s` between occurrences of any separator,
      in order, empty pieces kept (no `RemoveEmptyEntries`). There is always at
      least one piece, and no piece contains a separator. */
  function Split(s: string, seps: set<char>): (pieces: seq<string>)
    ensures |pieces| >= 1
    ensures forall k :: 0 <= k < |pieces| ==> NoneIn(pieces[k], seps)
    decreases |s|
  {
    if s == [] then [""]
    else
      var rest := Split(s[1..], seps);
      if s[0] in seps then [""] + rest
      else [[s[0]] + rest[0]] + rest[1..]
  }

  /** The separator characters of `s`, in the order they occur. */
  function SeparatorsIn(s: string, seps: set<char>): (found: seq<char>)
    ensures forall k :: 0 <= k < |found| ==> found[k] in seps
    decreases |s|
  {
    if s == [] then []
    else (if s[0] in seps then [s[0]] else []) + SeparatorsIn(s[1..], seps)
  }

  /** `pieces[0] + glue[0] + pieces[1] + glue[1] + ... + pieces[n]`: the
      string that `Split` takes apart. */
  function JoinWith(pieces: seq<string>, glue: seq<char>): string
    requires |pieces| == |glue| + 1
    decreases |glue|
  {
    if glue == [] then pieces[0]
    else pieces[0] + [glue[0]] + JoinWith(pieces[1..], glue[1..])
  }

  lemma JoinWithCons(x: char, p: string, ps: seq<string>, glue: seq<char>)
    requires |ps| == |glue|
    ensures JoinWith([[x] + p] + ps, glue) == [x] + JoinWith([p] + ps, glue)
  {
    if glue != [] {
      assert ([[x] + p] + ps)[1..] == ps;
      assert ([p] + ps)[1..] == ps;
    }
  }

  /** Splitting loses nothing: there is one piece more than there are
      separators, and putting the separators back between the pieces gives the
      original string. */
  lemma {:induction false} SplitRejoins(s: string, seps: set<char>)
    ensures |Split(s, seps)| == |SeparatorsIn(s, seps)| + 1
    ensures JoinWith(Split(s, seps), SeparatorsIn(s, seps)) == s
    decreases |s|
  {
    if s != [] {
      SplitRejoins(s[1..], seps);
      var rest := Split(s[1..], seps);
      var glue := SeparatorsIn(s[1..], seps);
      if s[0] in seps {
        assert SeparatorsIn(s, seps) == [s[0]] + glue;
        assert ([""] + rest)[1..] == rest;
        assert JoinWith([""] + rest, [s[0]] + glue) == [s[0]] + JoinWith(rest, glue);
        assert [s[0]] + s[1..] == s;
      } else {
        assert SeparatorsIn(s, seps) == glue;
        assert rest == [rest[0]] + rest[1..];
        JoinWithCons(s[0], rest[0], rest[1..], glue);
        assert [s[0]] + s[1..] == s;
      }
    }
  }

  /** A string without separators is its own single piece. */
  lemma {:induction false} SplitWhole(s: string, seps: set<char>)
    requires NoneIn(s, seps)
    ensures Split(s, seps) == [s]
    decreases |s|
  {
    if s != [] {
      assert NoneIn(s[1..], seps);
      SplitWhole(s[1..], seps);
      assert [s[0]] + s[1..] == s;
    }
  }

  /** A separator-free prefix followed by a separator becomes the first piece. */
  lemma {:induction false} SplitAfter(a: string, c: char, b: string, seps: set<char>)
    requires NoneIn(a, seps) && c in seps
    ensures Split(a + [c] + b, seps) == [a] + Split(b, seps)
    decreases |a|
  {
    if a == [] {
      assert (a + [c] + b)[1..] == b;
    } else {
      assert (a + [c] + b)[0] == a[0];
      assert (a + [c] + b)[1..] == a[1..] + [c] + b;
      assert NoneIn(a[1..], seps);
      SplitAfter(a[1..], c, b, seps);
      assert [a[0]] + a[1..] == a;
    }
  }

  /** The inverse direction of `SplitRejoins`: joining separator-free pieces
      with separators and splitting again gives back the pieces. */
  lemma {:induction false} SplitOfJoin(pieces: seq<string>, glue: seq<char>, seps: set<char>)
    requires |pieces| == |glue| + 1
    requires forall k :: 0 <= k < |pieces| ==> NoneIn(pieces[k], seps)
    requires forall k :: 0 <= k < |glue| ==> glue[k] in seps
    ensures Split(JoinWith(pieces, glue), seps) == pieces
    decreases |glue|
  {
    if glue == [] {
      SplitWhole(pieces[0], seps);
    } else {
      SplitOfJoin(pieces[1..], glue[1..], seps);
      SplitAfter(pieces[0], glue[0], JoinWith(pieces[1..], glue[1..]), seps);
      assert [pieces[0]] + pieces[1..] == pieces;
    }
  }

  /** The characters `Char.IsWhiteSpace` accepts: U+0009 to U+000D, U+0085 and
      the members of the Unicode categories Zs, Zl and Zp. */
  const WhiteSpace: set<char> := {
    '\t', '\n', '\U{000B}', '\U{000C}', '\r', ' ', '\U{0085}', '\U{00A0}', '\U{1680}',
    '\U{2000}', '\U{2001}', '\U{2002}', '\U{2003}', '\U{2004}', '\U{2005}', '\U{2006}',
    '\U{2007}', '\U{2008}', '\U{2009}', '\U{200A}', '\U{2028}', '\U{2029}', '\U{202F}',
    '\U{205F}', '\U{3000}'
  }

  /** `s` with its leading characters from `ws` removed. */
  function TrimStart(s: string, ws: set<char>): string
    decreases |s|
  {
    if s != [] && s[0] in ws then TrimStart(s[1..], ws) else s
  }

  /** `s` with its trailing characters from `ws` removed. */
  function TrimEnd(s: string, ws: set<char>): string
    decreases |s|
  {
    if s != [] && s[|s| - 1] in ws then TrimEnd(s[..|s| - 1], ws) else s
  }

  /** `s.Trim()` over the characters `ws`: both ends stripped. */
  function Trim(s: string, ws: set<char>): string {
    TrimEnd(TrimStart(s, ws), ws)
  }

  /** `TrimStart` keeps a suffix that starts outside `ws` (or is empty) and
      drops only characters of `ws`. */
  lemma {:induction false} TrimStartSpec(s: string, ws: set<char>)
    ensures |TrimStart(s, ws)| <= |s| && TrimStart(s, ws) == s[|s| - |TrimStart(s, ws)|..]
    ensures forall i :: 0 <= i < |s| - |TrimStart(s, ws)| ==> s[i] in ws
    ensures TrimStart(s, ws) == [] || TrimStart(s, ws)[0] !in ws
    decreases |s|
  {
    if s != [] && s[0] in ws {
      TrimStartSpec(s[1..], ws);
    }
  }

  /** `TrimEnd` keeps a prefix that ends outside `ws` (or is empty) and drops
      only characters of `ws`. */
  lemma {:induction false} TrimEndSpec(s: string, ws: set<char>)
    ensures |TrimEnd(s, ws)| <= |s| && TrimEnd(s, ws) == s[..|TrimEnd(s, ws)|]
    ensures forall i :: |TrimEnd(s, ws)| <= i < |s| ==> s[i] in ws
    ensures TrimEnd(s, ws) == [] || TrimEnd(s, ws)[|TrimEnd(s, ws)| - 1] !in ws
    decreases |s|
  {
    if s != [] && s[|s| - 1] in ws {
      TrimEndSpec(s[..|s| - 1], ws);
    }
  }

  /** `Trim` keeps the contiguous part of `s` between its leading and its
      trailing characters from `ws`: everything dropped is in `ws`, the part
      kept is empty exactly when every character of `s` is in `ws`, and
      otherwise begins and ends outside `ws`. */
  lemma TrimSpec(s: string, ws: set<char>)
    ensures var r, lead := Trim(s, ws), |s| - |TrimStart(s, ws)|;
      && 0 <= lead <= lead + |r| <= |s| && r == s[lead..lead + |r|]
      && (forall i :: 0 <= i < |s| && (i < lead || lead + |r| <= i) ==> s[i] in ws)
      && (r == [] <==> forall i :: 0 <= i < |s| ==> s[i] in ws)
      && (r == [] || (r[0] !in ws && r[|r| - 1] !in ws))
  {
    var t := TrimStart(s, ws);
    var r := TrimEnd(t, ws);
    TrimStartSpec(s, ws);
    TrimEndSpec(t, ws);
    var lead := |s| - |t|;
    assert r == s[lead..lead + |r|];
    forall i | lead + |r| <= i < |s| ensures s[i] in ws {
      assert s[i] == t[i - lead];
    }
    if r != [] {
      assert r[0] == t[0];
    }
  }

  /** A string that already begins and ends outside `ws` is left as it is. */
  lemma TrimUntouched(s: string, ws: set<char>)
    requires s == [] || (s[0] !in ws && s[|s| - 1] !in ws)
    ensures Trim(s, ws) == s
  {
  }

  /** `ToLower` on the ASCII letters only. */
  function LowerChar(c: char): char {
    if 'A' <= c <= 'Z' then (c as int + 32) as char else c
  }

  /** `s.ToLower()` on ASCII letters: same length, every upper-case ASCII
      letter replaced by its lower-case form, every other character kept. */
  function AsciiLower(s: string): (r: string)
    ensures |r| == |s|
    decreases |s|
  {
    if s == [] then [] else [LowerChar(s[0])] + AsciiLower(s[1..])
  }

  /** Lowering works character by character. */
  lemma {:induction false} AsciiLowerAt(s: string)
    ensures forall i :: 0 <= i < |s| ==> AsciiLower(s)[i] == LowerChar(s[i])
    decreases |s|
  {
    if s != [] {
      AsciiLowerAt(s[1..]);
    }
  }
}
