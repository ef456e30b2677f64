/** Placeholder substitution in dialogue templates.

    A script is text in which placeholders are written `{name}`. The generator
    fills them with Python's `str.replace`, one name at a time, which is
    `ReplaceAll` below. To say what that loop achieves, a script is also viewed
    as a sequence of segments (plain text or a placeholder): rendering the
    segments gives the script, and replacing a placeholder's token in the
    rendered text is the same as turning that placeholder into plain text. */
module Templating {

  /** A placeholder name: no brace occurs in it. */
  predicate BraceFree(s: string) {
    '{' !in s && '}' !in s
  }

  /** Text that never opens a placeholder. */
  predicate Plain(t: string) {
    '{' !in t
  }

  datatype Segment = Literal(text: string) | Placeholder(name: string)

  /** Plain text between placeholders, and brace-free placeholder names. */
  predicate WellFormed(segs: seq<Segment>) {
    forall i :: 0 <= i < |segs| ==>
      match segs[i]
      case Literal(t) => Plain(t)
      case Placeholder(k) => BraceFree(k)
  }

  /** Joining two well-formed scripts gives a well-formed script. */
  lemma WellFormedAppend(a: seq<Segment>, b: seq<Segment>)
    requires WellFormed(a) && WellFormed(b)
    ensures WellFormed(a + b)
  {
    forall i | 0 <= i < |a + b|
      ensures (a + b)[i] == if i < |a| then a[i] else b[i - |a|]
    {
    }
  }

  /** Brace-free keys and plain values. */
  predicate PlainFill(fill: seq<(string, string)>) {
    forall i :: 0 <= i < |fill| ==> BraceFree(fill[i].0) && Plain(fill[i].1)
  }

  /** The token a placeholder is written as: `"{" + k + "}"`. */
  function Token(k: string): string {
    "{" + k + "}"
  }

  function Render(segs: seq<Segment>): string {
    if segs == [] then ""
    else
      (match segs[0]
       case Literal(t) => t
       case Placeholder(k) => Token(k))
      + Render(segs[1..])
  }

  /** The names of the placeholders that occur in `segs`. */
  function Names(segs: seq<Segment>): set<string> {
    if segs == [] then {}
    else (if segs[0].Placeholder? then {segs[0].name} else {}) + Names(segs[1..])
  }

  lemma {:induction false} NamesAppend(a: seq<Segment>, b: seq<Segment>)
    ensures Names(a + b) == Names(a) + Names(b)
    decreases |a|
  {
    if a == [] {
      assert a + b == b;
    } else {
      assert (a + b)[1..] == a[1..] + b;
      NamesAppend(a[1..], b);
    }
  }

  /** `pat` occurs in `s` as a contiguous substring. */
  predicate Occurs(s: string, pat: string)
    decreases |s|
  {
    |pat| <= |s| && (s[..|pat|] == pat || Occurs(s[1..], pat))
  }

  /** Text placed between two others occurs in the whole. */
  lemma {:induction false} OccursWithin(a: string, x: string, b: string)
    ensures Occurs(a + x + b, x)
    decreases |a|
  {
    if a == [] {
      assert a + x + b == x + b;
      assert (x + b)[..|x|] == x;
    } else {
      assert (a + x + b)[1..] == a[1..] + x + b;
      OccursWithin(a[1..], x, b);
    }
  }

  /** `s.replace(pat, rep)`: every occurrence of `pat`, scanning left to right
      and never overlapping, is replaced by `rep`. The pattern is never empty
      here, since it is always a token. */
  function ReplaceAll(s: string, pat: string, rep: string): (r: string)
    requires pat != []
    ensures pat[0] !in s ==> r == s
    decreases |s|
  {
    if |s| < |pat| then s
    else if s[..|pat|] == pat then rep + ReplaceAll(s[|pat|..], pat, rep)
    else [s[0]] + ReplaceAll(s[1..], pat, rep)
  }

  /** The loop `for k, v in fill.items(): script = script.replace("{"+k+"}", v)`,
      with the fill map as its items in insertion order. */
  function FillAll(s: string, fill: seq<(string, string)>): (r: string)
    ensures '{' !in s ==> r == s
    decreases |fill|
  {
    if fill == [] then s
    else FillAll(ReplaceAll(s, Token(fill[0].0), fill[0].1), fill[1..])
  }

  /** The replacement loop itself: `script` is rebound once per item of the
      fill map. */
  method FillIn(s: string, fill: seq<(string, string)>) returns (script: string)
    ensures script == FillAll(s, fill)
  {
    script := s;
    var i := 0;
    while i < |fill|
      invariant 0 <= i <= |fill|
      invariant FillAll(script, fill[i..]) == FillAll(s, fill)
    {
      assert fill[i..][1..] == fill[i + 1..];
      script := ReplaceAll(script, Token(fill[i].0), fill[i].1);
      i := i + 1;
    }
    assert fill[i..] == [];
  }

  /** Every placeholder named `k` becomes the plain text `v`. */
  function Substitute(segs: seq<Segment>, k: string, v: string): seq<Segment> {
    if segs == [] then []
    else [if segs[0] == Placeholder(k) then Literal(v) else segs[0]] + Substitute(segs[1..], k, v)
  }

  function SubstituteAll(segs: seq<Segment>, fill: seq<(string, string)>): seq<Segment>
    decreases |fill|
  {
    if fill == [] then segs
    else SubstituteAll(Substitute(segs, fill[0].0, fill[0].1), fill[1..])
  }

  /** The keys of a fill map. */
  function Keys(fill: seq<(string, string)>): set<string> {
    set i | 0 <= i < |fill| :: fill[i].0
  }

  /** Replacing a pattern that does not occur changes nothing. */
  lemma {:induction false} ReplaceAllAbsent(s: string, pat: string, rep: string)
    requires pat != [] && !Occurs(s, pat)
    ensures ReplaceAll(s, pat, rep) == s
    decreases |s|
  {
    if |s| >= |pat| {
      ReplaceAllAbsent(s[1..], pat, rep);
      assert [s[0]] + s[1..] == s;
    }
  }

  /** Text without `{` is copied unchanged and hides no occurrence of a
      pattern that starts with `{`. */
  lemma {:induction false} SkipPlain(t: string, rest: string, pat: string, rep: string)
    requires pat != [] && pat[0] == '{' && '{' !in t
    ensures ReplaceAll(t + rest, pat, rep) == t + ReplaceAll(rest, pat, rep)
    ensures Occurs(t + rest, pat) <==> Occurs(rest, pat)
    decreases |t|
  {
    if t == [] {
      assert t + rest == rest;
    } else {
      var s := t + rest;
      assert s[1..] == t[1..] + rest;
      SkipPlain(t[1..], rest, pat, rep);
      if |s| < |pat| {
        assert ReplaceAll(rest, pat, rep) == rest;
      } else {
        assert s[..|pat|][0] == t[0] != pat[0];
        assert Occurs(s, pat) == Occurs(s[1..], pat);
        calc {
          ReplaceAll(s, pat, rep);
          [t[0]] + ReplaceAll(t[1..] + rest, pat, rep);
          [t[0]] + (t[1..] + ReplaceAll(rest, pat, rep));
          { assert [t[0]] + t[1..] == t; }
          t + ReplaceAll(rest, pat, rep);
        }
      }
    }
  }

  /** The token of one name is never a prefix of text starting with the
      token of a different name. */
  lemma TokenMismatch(n: string, k: string, rest: string)
    requires BraceFree(n) && BraceFree(k) && n != k
    ensures |Token(n) + rest| < |Token(k)| || (Token(n) + rest)[..|Token(k)|] != Token(k)
  {
    var s, p := Token(n) + rest, Token(k);
    if |s| >= |p| {
      if |n| == |k| {
        var i :| 0 <= i < |n| && n[i] != k[i];
        assert s[..|p|][i + 1] == n[i] && p[i + 1] == k[i];
      } else if |n| < |k| {
        assert s[..|p|][|n| + 1] == '}';
        assert p[|n| + 1] == k[|n|];
      } else {
        assert p[|k| + 1] == '}';
        assert s[..|p|][|k| + 1] == n[|k|];
      }
    }
  }

  /** Text starting with the token of another name is copied past that token. */
  lemma SkipOtherToken(n: string, k: string, rest: string, rep: string)
    requires BraceFree(n) && BraceFree(k) && n != k
    ensures ReplaceAll(Token(n) + rest, Token(k), rep) == Token(n) + ReplaceAll(rest, Token(k), rep)
    ensures Occurs(Token(n) + rest, Token(k)) <==> Occurs(rest, Token(k))
  {
    var s, p := Token(n) + rest, Token(k);
    TokenMismatch(n, k, rest);
    if |s| < |p| {
      assert ReplaceAll(rest, p, rep) == rest;
    } else {
      var tail := n + "}";
      assert s[0] == '{' && s[1..] == tail + rest;
      SkipPlain(tail, rest, p, rep);
      var x := ReplaceAll(rest, p, rep);
      assert ReplaceAll(s, p, rep) == [s[0]] + ReplaceAll(s[1..], p, rep);
      assert ReplaceAll(s[1..], p, rep) == tail + x;
      assert Token(n) == ['{'] + tail;
      assert [s[0]] + (tail + x) == (['{'] + tail) + x;
    }
  }

  /** Replacing the token of `k` in a rendered script renders the script in
      which the placeholders named `k` became `v`; the result is still well
      formed and `k` is no longer among its names. */
  lemma {:induction false} ReplaceRendered(segs: seq<Segment>, k: string, v: string)
    requires WellFormed(segs) && BraceFree(k) && Plain(v)
    ensures ReplaceAll(Render(segs), Token(k), v) == Render(Substitute(segs, k, v))
    ensures WellFormed(Substitute(segs, k, v))
    ensures Names(Substitute(segs, k, v)) == Names(segs) - {k}
  {
    if segs != [] {
      var rest := Render(segs[1..]);
      assert WellFormed(segs[1..]) by {
        forall i | 0 <= i < |segs[1..]| ensures segs[1..][i] == segs[i + 1] { }
      }
      ReplaceRendered(segs[1..], k, v);
      var sub := Substitute(segs, k, v);
      assert sub[1..] == Substitute(segs[1..], k, v);
      assert WellFormed(sub) by {
        forall i | 0 <= i < |sub| ensures sub[i] == (if i == 0 then sub[0] else Substitute(segs[1..], k, v)[i - 1]) { }
      }
      match segs[0]
      case Literal(t) =>
        SkipPlain(t, rest, Token(k), v);
      case Placeholder(n) =>
        if n == k {
          var s := Token(k) + rest;
          assert s[..|Token(k)|] == Token(k);
          assert s[|Token(k)|..] == rest;
        } else {
          SkipOtherToken(n, k, rest, v);
        }
    }
  }

  /** Where no placeholder is named `k`, the token of `k` does not occur. */
  lemma {:induction false} TokenAbsent(segs: seq<Segment>, k: string)
    requires WellFormed(segs) && BraceFree(k) && k !in Names(segs)
    ensures !Occurs(Render(segs), Token(k))
  {
    if segs != [] {
      var rest := Render(segs[1..]);
      assert WellFormed(segs[1..]) by {
        forall i | 0 <= i < |segs[1..]| ensures segs[1..][i] == segs[i + 1] { }
      }
      TokenAbsent(segs[1..], k);
      match segs[0]
      case Literal(t) =>
        SkipPlain(t, rest, Token(k), "");
      case Placeholder(n) =>
        SkipOtherToken(n, k, rest, "");
    }
  }

  /** Without placeholders, a well-formed script contains no `{` at all. */
  lemma {:induction false} NoPlaceholderNoBrace(segs: seq<Segment>)
    requires WellFormed(segs) && Names(segs) == {}
    ensures '{' !in Render(segs)
  {
    if segs != [] {
      assert WellFormed(segs[1..]) by {
        forall i | 0 <= i < |segs[1..]| ensures segs[1..][i] == segs[i + 1] { }
      }
      NoPlaceholderNoBrace(segs[1..]);
    }
  }

  /** The replacement loop over a whole fill map, on a rendered script:
      the same as substituting each key in turn in the segments, after which
      exactly the names that are not keys of the map are left. */
  lemma {:induction false} FillRendered(segs: seq<Segment>, fill: seq<(string, string)>)
    requires WellFormed(segs) && PlainFill(fill)
    ensures FillAll(Render(segs), fill) == Render(SubstituteAll(segs, fill))
    ensures WellFormed(SubstituteAll(segs, fill))
    ensures Names(SubstituteAll(segs, fill)) == Names(segs) - Keys(fill)
    decreases |fill|
  {
    if fill != [] {
      var (k, v) := fill[0];
      ReplaceRendered(segs, k, v);
      assert PlainFill(fill[1..]) by {
        forall i | 0 <= i < |fill[1..]| ensures fill[1..][i] == fill[i + 1] { }
      }
      FillRendered(Substitute(segs, k, v), fill[1..]);
      assert Keys(fill) == {k} + Keys(fill[1..]) by {
        forall x | x in Keys(fill) ensures x in {k} + Keys(fill[1..]) {
          var i :| 0 <= i < |fill| && fill[i].0 == x;
          if i > 0 { assert fill[1..][i - 1].0 == x; }
        }
      }
    }
  }

  /** After the loop no token of a key of the fill map is left, and when every
      placeholder of the script is a key, no `{` is left at all. */
  lemma FillRemovesKeys(segs: seq<Segment>, fill: seq<(string, string)>)
    requires WellFormed(segs) && PlainFill(fill)
    ensures forall k :: k in Keys(fill) ==> !Occurs(FillAll(Render(segs), fill), Token(k))
    ensures Names(segs) <= Keys(fill) ==> '{' !in FillAll(Render(segs), fill)
  {
    FillRendered(segs, fill);
    var done := SubstituteAll(segs, fill);
    forall k | k in Keys(fill) ensures !Occurs(Render(done), Token(k)) {
      var i :| 0 <= i < |fill| && fill[i].0 == k;
      TokenAbsent(done, k);
    }
    if Names(segs) <= Keys(fill) {
      NoPlaceholderNoBrace(done);
    }
  }
}
