/** Trimming, splitting and joining text, as model lists and key lists use them. */
module Text {

  /** The characters with Unicode's White_Space property. */
  predicate IsSpace(c: char) {
    || '\t' <= c <= '\r' || c == ' ' || c == '\U{85}' || c == '\U{A0}' || c == '\U{1680}'
    || '\U{2000}' <= c <= '\U{200A}' || c == '\U{2028}' || c == '\U{2029}' || c == '\U{202F}'
    || c == '\U{205F}' || c == '\U{3000}'
  }

  predicate Trimmed(s: string) {
    s == "" || (!IsSpace(s[0]) && !IsSpace(s[|s| - 1]))
  }

  function TrimSpace(s: string): (r: string)
    ensures Trimmed(r)
    ensures Trimmed(s) ==> r == s
    ensures forall c :: c in r ==> c in s
  {
    if s != "" && IsSpace(s[0]) then TrimSpace(s[1..])
    else if s != "" && IsSpace(s[|s| - 1]) then TrimSpace(s[..|s| - 1])
    else s
  }

  /** Strips one character from both ends. */
  function TrimChar(s: string, c: char): (r: string)
    ensures r == "" || (r[0] != c && r[|r| - 1] != c)
    ensures s == "" || (s[0] != c && s[|s| - 1] != c) <==> r == s
  {
    if s != "" && s[0] == c then TrimChar(s[1..], c)
    else if s != "" && s[|s| - 1] == c then TrimChar(s[..|s| - 1], c)
    else s
  }

  function Split(s: string, c: char): (r: seq<string>)
    ensures r != []
    ensures forall x :: x in r ==> c !in x
  {
    if s == "" then [""]
    else
      var rest := Split(s[1..], c);
      if s[0] == c then [""] + rest else [[s[0]] + rest[0]] + rest[1..]
  }

  function Join(xs: seq<string>, c: char): string {
    if xs == [] then "" else if |xs| == 1 then xs[0] else xs[0] + [c] + Join(xs[1..], c)
  }

  /** How model lists and key lists are stored and read back. */
  function Parse(s: string, c: char): (r: seq<string>)
    ensures forall x :: x in r ==> c !in x
  {
    if s == "" then [] else Split(TrimChar(s, c), c)
  }

  predicate FreeOf(xs: seq<string>, c: char) {
    forall x :: x in xs ==> c !in x
  }

  function Count(s: string, c: char): nat {
    if s == "" then 0 else Count(s[1..], c) + if s[0] == c then 1 else 0
  }

  lemma {:induction false} SplitFirst(x: string, rest: string, c: char)
    requires c !in x
    ensures Split(x, c) == [x]
    ensures Split(x + [c] + rest, c) == [x] + Split(rest, c)
  {
    if x == "" {
      assert x + [c] + rest == [c] + rest && ([c] + rest)[1..] == rest;
    } else {
      SplitFirst(x[1..], rest, c);
      assert (x + [c] + rest)[1..] == x[1..] + [c] + rest;
      assert [x[0]] + x[1..] == x;
    }
  }

  lemma {:induction false} SplitJoin(xs: seq<string>, c: char)
    requires xs != [] && FreeOf(xs, c)
    ensures Split(Join(xs, c), c) == xs
  {
    SplitFirst(xs[0], Join(xs[1..], c), c);
    if |xs| > 1 {
      SplitJoin(xs[1..], c);
    }
  }

  lemma {:induction false} JoinEnds(xs: seq<string>, c: char)
    requires xs != []
    ensures xs[0] != "" ==> Join(xs, c) != "" && Join(xs, c)[0] == xs[0][0]
    ensures xs[0] == "" && |xs| > 1 ==> Join(xs, c) != "" && Join(xs, c)[0] == c
    ensures var j, last := Join(xs, c), xs[|xs| - 1];
            && (last != "" ==> j != "" && j[|j| - 1] == last[|last| - 1])
            && (last == "" && |xs| > 1 ==> j != "" && j[|j| - 1] == c)
  {
    if |xs| > 1 {
      JoinEnds(xs[1..], c);
      var tail := Join(xs[1..], c);
      assert Join(xs, c) == xs[0] + [c] + tail;
      if tail == "" {
        assert Join(xs, c) == xs[0] + [c];
      }
    }
  }

  lemma {:induction false} SplitCount(s: string, c: char)
    ensures |Split(s, c)| == Count(s, c) + 1
  {
    if s != "" {
      SplitCount(s[1..], c);
    }
  }

  lemma {:induction false} CountLast(s: string, c: char)
    requires s != ""
    ensures Count(s, c) == Count(s[..|s| - 1], c) + if s[|s| - 1] == c then 1 else 0
  {
    if |s| > 1 {
      CountLast(s[1..], c);
      assert s[1..][..|s| - 2] == s[..|s| - 1][1..];
    }
  }

  lemma {:induction false} TrimCount(s: string, c: char)
    ensures Count(TrimChar(s, c), c) <= Count(s, c)
    ensures s != "" && (s[0] == c || s[|s| - 1] == c) ==> Count(TrimChar(s, c), c) < Count(s, c)
  {
    if s != "" {
      CountLast(s, c);
      if s[0] == c {
        TrimCount(s[1..], c);
      } else if s[|s| - 1] == c {
        TrimCount(s[..|s| - 1], c);
      }
    }
  }

  /** `t` is `s` without some spaces before and after. */
  ghost predicate CutsSpace(s: string, t: string) {
    exists i: nat, j: nat :: i <= j <= |s| && t == s[i..j] && SpaceBut(s, i, j)
  }

  ghost predicate SpaceBut(s: string, i: nat, j: nat) {
    forall k :: 0 <= k < |s| && !(i <= k < j) ==> IsSpace(s[k])
  }

  lemma CutsFirst(s: string, t: string)
    requires s != "" && IsSpace(s[0]) && CutsSpace(s[1..], t)
    ensures CutsSpace(s, t)
  {
    var i: nat, j: nat :| i <= j <= |s[1..]| && t == s[1..][i..j] && SpaceBut(s[1..], i, j);
    assert t == s[i + 1..j + 1];
    forall k | 0 <= k < |s| && !(i + 1 <= k < j + 1) ensures IsSpace(s[k]) {
      assert k > 0 ==> s[k] == s[1..][k - 1];
    }
    assert SpaceBut(s, i + 1, j + 1);
  }

  lemma CutsLast(s: string, t: string)
    requires s != "" && IsSpace(s[|s| - 1]) && CutsSpace(s[..|s| - 1], t)
    ensures CutsSpace(s, t)
  {
    var init := s[..|s| - 1];
    var i: nat, j: nat :| i <= j <= |init| && t == init[i..j] && SpaceBut(init, i, j);
    assert init[i..j] == s[i..j];
    forall k | 0 <= k < |s| && !(i <= k < j) ensures IsSpace(s[k]) {
      if k < |init| {
        assert s[k] == init[k];
      } else {
        assert k == |s| - 1;
      }
    }
    assert SpaceBut(s, i, j);
  }

  lemma CutsNothing(s: string)
    ensures CutsSpace(s, s)
  {
    assert s == s[0..|s|] && SpaceBut(s, 0, |s|);
  }

  /** Trimming cuts nothing but spaces off the two ends. */
  lemma {:induction false} TrimCutsSpace(s: string)
    ensures CutsSpace(s, TrimSpace(s))
  {
    if s != "" && IsSpace(s[0]) {
      TrimCutsSpace(s[1..]);
      CutsFirst(s, TrimSpace(s[1..]));
    } else if s != "" && IsSpace(s[|s| - 1]) {
      TrimCutsSpace(s[..|s| - 1]);
      CutsLast(s, TrimSpace(s[..|s| - 1]));
    } else {
      CutsNothing(s);
    }
  }

  /** Splitting loses nothing: joining the parts gives the text back. */
  lemma {:induction false} JoinSplit(s: string, c: char)
    ensures Join(Split(s, c), c) == s
  {
    if s != "" {
      var rest := Split(s[1..], c);
      JoinSplit(s[1..], c);
      if s[0] == c {
        assert ([""] + rest)[1..] == rest;
      } else {
        assert ([[s[0]] + rest[0]] + rest[1..])[1..] == rest[1..];
      }
    }
  }

  /** A list without separators survives being stored exactly when neither its
      first nor its last element is blank. */
  lemma ParseJoin(xs: seq<string>, c: char)
    requires FreeOf(xs, c)
    ensures Parse(Join(xs, c), c) == xs <==> xs == [] || (xs[0] != "" && xs[|xs| - 1] != "")
  {
    if xs != [] {
      var j := Join(xs, c);
      JoinEnds(xs, c);
      SplitJoin(xs, c);
      assert xs[0] in xs && xs[|xs| - 1] in xs;
      if xs[0] == "" || xs[|xs| - 1] == "" {
        SplitCount(j, c);
        SplitCount(TrimChar(j, c), c);
        TrimCount(j, c);
      }
    }
  }
}
