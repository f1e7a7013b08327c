/** Splitting, joining and trimming. */
module Text {
  function Join(parts: seq<string>, sep: string): string
    requires parts != []
  {
    if |parts| == 1 then parts[0] else parts[0] + sep + Join(parts[1..], sep)
  }

  /** Split at every `c`. */
  function Split(s: string, c: char): (parts: seq<string>)
    ensures parts != []
  {
    if s == "" then [""]
    else if s[0] == c then [""] + Split(s[1..], c)
    else var rest := Split(s[1..], c); [[s[0]] + rest[0]] + rest[1..]
  }

  predicate Without(s: string, c: char) { c !in s }

  lemma SplitPush(x: char, s: string, c: char)
    ensures x == c ==> Split([x] + s, c) == [""] + Split(s, c)
    ensures x != c ==> Split([x] + s, c) == [[x] + Split(s, c)[0]] + Split(s, c)[1..]
  {
    assert ([x] + s)[1..] == s && ([x] + s)[0] == x;
  }

  lemma JoinEmpty(rest: seq<string>, sep: string)
    requires rest != []
    ensures Join([""] + rest, sep) == sep + Join(rest, sep)
  {
    assert ([""] + rest)[1..] == rest;
    assert "" + sep + Join(rest, sep) == sep + Join(rest, sep);
  }

  lemma {:induction false} JoinSplit(s: string, c: char)
    ensures Join(Split(s, c), [c]) == s
    ensures forall i | 0 <= i < |Split(s, c)| :: Without(Split(s, c)[i], c)
  {
    if s != "" {
      hide Split, Join;
      var x, s' := s[0], s[1..];
      assert s == [x] + s';
      JoinSplit(s', c);
      SplitPush(x, s', c);
      if x == c { JoinEmpty(Split(s', c), [c]); } else { JoinGrow(x, Split(s', c), [c]); }
    }
  }

  lemma {:induction false} SplitFirst(p: string, c: char, rest: string)
    requires Without(p, c)
    ensures Split(p + [c] + rest, c) == [p] + Split(rest, c)
    ensures Split(p, c) == [p]
  {
    if p == "" {
      assert p + [c] + rest == [c] + rest;
      assert ([c] + rest)[1..] == rest;
    } else {
      SplitFirst(p[1..], c, rest);
      assert (p + [c] + rest)[1..] == p[1..] + [c] + rest;
      assert [p[0]] + p[1..] == p;
    }
  }

  lemma {:induction false} SplitCovers(s: string, c: char, i: nat)
    requires i < |s| && s[i] != c
    ensures exists k :: 0 <= k < |Split(s, c)| && s[i] in Split(s, c)[k]
  {
    var parts := Split(s, c);
    if i == 0 {
      assert s[i] in parts[0];
    } else {
      SplitCovers(s[1..], c, i - 1);
      var rest := Split(s[1..], c);
      var k :| 0 <= k < |rest| && s[i] in rest[k];
      if s[0] == c {
        assert parts[k + 1] == rest[k];
      } else if k > 0 {
        assert parts[k] == rest[k];
      } else {
        assert s[i] in parts[0];
      }
    }
  }

  lemma JoinThree(parts: seq<string>, sep: string)
    requires |parts| == 3
    ensures Join(parts, sep) == parts[0] + sep + parts[1] + sep + parts[2]
  {
    var rest := parts[1..];
    assert rest[0] == parts[1] && rest[1..][0] == parts[2];
    assert Join(rest, sep) == parts[1] + sep + parts[2];
    assert Join(parts, sep) == parts[0] + sep + (parts[1] + sep + parts[2]);
  }

  /** One more character at the front of the first part. */
  lemma JoinGrow(c: char, rest: seq<string>, sep: string)
    requires rest != []
    ensures Join([[c] + rest[0]] + rest[1..], sep) == [c] + Join(rest, sep)
  {
    var parts := [[c] + rest[0]] + rest[1..];
    assert parts[1..] == rest[1..];
    if |rest| > 1 {
      assert [c] + rest[0] + sep + Join(rest[1..], sep) == [c] + (rest[0] + sep + Join(rest[1..], sep));
    }
  }

  // -- first and last occurrence

  function IndexOf(s: string, c: char): (i: nat)
    ensures i <= |s| && Without(s[..i], c) && (i < |s| ==> s[i] == c)
  {
    if s == "" || s[0] == c then 0 else 1 + IndexOf(s[1..], c)
  }

  /** One past the last `c`, or 0. */
  function AfterLast(s: string, c: char): (i: nat)
    ensures i <= |s| && Without(s[i..], c) && (i > 0 ==> s[i - 1] == c)
  {
    if s == "" then 0 else if s[|s| - 1] == c then |s| else AfterLast(s[..|s| - 1], c)
  }

  lemma {:induction false} IndexIs(p: string, c: char, rest: string)
    requires Without(p, c)
    ensures IndexOf(p + [c] + rest, c) == |p|
  {
    if p != "" {
      assert (p + [c] + rest)[1..] == p[1..] + [c] + rest;
      IndexIs(p[1..], c, rest);
    }
  }

  lemma {:induction false} LastIs(p: string, c: char, rest: string)
    requires Without(rest, c)
    ensures AfterLast(p + [c] + rest, c) == |p| + 1
  {
    if rest != "" {
      var n := |rest| - 1;
      assert (p + [c] + rest)[..|p| + 1 + n] == p + [c] + rest[..n];
      LastIs(p, c, rest[..n]);
    }
  }

  // -- optional white space

  predicate Blank(c: char) { c == ' ' || c == '\t' }
  predicate Blanks(s: string) { forall i | 0 <= i < |s| :: Blank(s[i]) }

  function TrimLeft(s: string): string { if s != "" && Blank(s[0]) then TrimLeft(s[1..]) else s }
  function TrimRight(s: string): string { if s != "" && Blank(s[|s| - 1]) then TrimRight(s[..|s| - 1]) else s }

  /** `s.strip(" \t")` */
  function Trim(s: string): string { TrimRight(TrimLeft(s)) }

  predicate Tight(s: string) { s != "" ==> !Blank(s[0]) && !Blank(s[|s| - 1]) }

  lemma {:induction false} TrimLeftIs(s: string)
    ensures var t := TrimLeft(s); |t| <= |s| && t == s[|s| - |t|..] && Blanks(s[..|s| - |t|]) && (t != "" ==> !Blank(t[0]))
  {
    if s != "" && Blank(s[0]) {
      TrimLeftIs(s[1..]);
      var t := TrimLeft(s);
      assert s[1..][|s| - 1 - |t|..] == s[|s| - |t|..];
      assert s[..|s| - |t|] == [s[0]] + s[1..][..|s| - 1 - |t|];
    }
  }

  lemma {:induction false} TrimRightIs(s: string)
    ensures var t := TrimRight(s); t <= s && Blanks(s[|t|..]) && (t != "" ==> !Blank(t[|t| - 1]))
  {
    if s != "" && Blank(s[|s| - 1]) {
      TrimRightIs(s[..|s| - 1]);
      var t := TrimRight(s);
      assert s[|t|..] == s[..|s| - 1][|t|..] + [s[|s| - 1]];
    }
  }

  lemma TrimIs(s: string)
    ensures var t := Trim(s); Tight(t) && exists a, b :: s == a + t + b && Blanks(a) && Blanks(b)
  {
    hide TrimLeft, TrimRight, Blank, Blanks;
    TrimLeftIs(s);
    var l := TrimLeft(s);
    TrimRightIs(l);
    var t := TrimRight(l);
    var a, b := s[..|s| - |l|], l[|t|..];
    assert s == a + l;
    assert l == t + b;
    assert s == a + t + b;
    if t != "" { assert t[0] == l[0]; }
  }

  lemma {:induction false} TrimLeftOf(a: string, s: string)
    requires Blanks(a) && (s != "" ==> !Blank(s[0]))
    ensures TrimLeft(a + s) == s
  {
    if a == "" {
      assert a + s == s;
    } else {
      assert (a + s)[1..] == a[1..] + s;
      TrimLeftOf(a[1..], s);
    }
  }

  lemma {:induction false} TrimRightOf(s: string, b: string)
    requires Blanks(b) && (s != "" ==> !Blank(s[|s| - 1]))
    ensures TrimRight(s + b) == s
  {
    if b == "" {
      assert s + b == s;
    } else {
      assert (s + b)[..|s + b| - 1] == s + b[..|b| - 1];
      TrimRightOf(s, b[..|b| - 1]);
    }
  }

  lemma {:induction false} TrimBlanks(b: string)
    requires Blanks(b)
    ensures TrimLeft(b) == ""
  {
    if b != "" { TrimBlanks(b[1..]); }
  }

  lemma TrimOf(a: string, s: string, b: string)
    requires Blanks(a) && Blanks(b) && Tight(s)
    ensures Trim(a + s + b) == s
  {
    if s == "" {
      assert a + s + b == a + b;
      assert Blanks(a + b);
      TrimBlanks(a + b);
    } else {
      assert a + s + b == a + (s + b);
      TrimLeftOf(a, s + b);
      TrimRightOf(s, b);
    }
  }
}
