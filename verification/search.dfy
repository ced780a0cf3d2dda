/** Hierarchical fuzzy search over entry names: a name matches a query when
    both split into the same number of `/`-separated segments and every query
    segment is a case-insensitive subsequence of the name's segment there. */
module Search {
  import opened Values

  /** strings.Split(s, "/"): the pieces between separators, always at least one. */
  function Split(s: string): (r: seq<string>)
    ensures |r| >= 1
    ensures forall i :: 0 <= i < |r| ==> '/' !in r[i]
  {
    if s == [] then [""]
    else
      var rest := Split(s[1..]);
      if s[0] == '/' then [""] + rest
      else [[s[0]] + rest[0]] + rest[1..]
  }

  /** strings.Join(segs, "/"), the inverse of Split. */
  function Join(segs: seq<string>): string
    requires |segs| >= 1
  {
    if |segs| == 1 then segs[0] else segs[0] + "/" + Join(segs[1..])
  }

  /** Splitting a segment that has no separator in front of any string
      extends the first piece only. */
  lemma {:induction false} SplitAfterSegment(a: string, t: string)
    requires '/' !in a
    ensures Split(a + t) == [a + Split(t)[0]] + Split(t)[1..]
  {
    if a != [] {
      assert (a + t)[0] == a[0] && a[0] != '/';
      assert (a + t)[1..] == a[1..] + t;
      SplitAfterSegment(a[1..], t);
      var rest := Split(a[1..] + t);
      assert rest[0] == a[1..] + Split(t)[0];
      assert rest[1..] == Split(t)[1..];
      assert Split(a + t) == [[a[0]] + rest[0]] + rest[1..];
      assert [a[0]] + (a[1..] + Split(t)[0]) == a + Split(t)[0];
    } else {
      assert a + t == t && a + Split(t)[0] == Split(t)[0];
      assert Split(t) == [Split(t)[0]] + Split(t)[1..];
    }
  }

  /** Joining the pieces of a split gives back the string. */
  lemma {:induction false} JoinSplit(s: string)
    ensures Join(Split(s)) == s
  {
    if s != [] {
      JoinSplit(s[1..]);
      var rest := Split(s[1..]);
      if s[0] != '/' {
        if |rest| == 1 {
          assert Join(Split(s)) == [s[0]] + rest[0];
        } else {
          assert Split(s)[1..] == rest[1..];
          assert Join(Split(s)) == [s[0]] + rest[0] + "/" + Join(rest[1..]);
        }
      }
    }
  }

  /** Splitting a join of separator-free segments gives back the segments. */
  lemma {:induction false} SplitJoin(segs: seq<string>)
    requires |segs| >= 1
    requires forall i :: 0 <= i < |segs| ==> '/' !in segs[i]
    ensures Split(Join(segs)) == segs
  {
    if |segs| == 1 {
      SplitAfterSegment(segs[0], "");
      assert segs[0] + "" == segs[0];
    } else {
      SplitJoin(segs[1..]);
      var tail := "/" + Join(segs[1..]);
      SplitAfterSegment(segs[0], tail);
      assert tail[1..] == Join(segs[1..]);
      assert Split(tail) == [""] + segs[1..];
      assert segs[0] + "/" + Join(segs[1..]) == segs[0] + tail;
      assert segs[0] + "" == segs[0];
    }
  }

  /** The greedy subsequence test: the characters of q appear in t in order. */
  predicate IsSubsequence(q: string, t: string)
    decreases |t|
  {
    if q == [] then true
    else if t == [] then false
    else if q[0] == t[0] then IsSubsequence(q[1..], t[1..])
    else IsSubsequence(q, t[1..])
  }

  /** idx places each character of q at a position of t, strictly ascending. */
  ghost predicate Embeds(q: string, t: string, idx: seq<nat>) {
    && |idx| == |q|
    && (forall k :: 0 <= k < |idx| ==> idx[k] < |t| && t[idx[k]] == q[k])
    && (forall k, l :: 0 <= k < l < |idx| ==> idx[k] < idx[l])
  }

  function Shift(idx: seq<nat>, d: nat): (r: seq<nat>)
    ensures |r| == |idx|
    ensures forall k :: 0 <= k < |idx| ==> r[k] == idx[k] + d
  {
    seq(|idx|, k requires 0 <= k < |idx| => idx[k] + d)
  }

  /** Greedy matching finds an embedding whenever it says yes ... */
  lemma {:induction false} SubsequenceEmbeds(q: string, t: string)
    requires IsSubsequence(q, t)
    ensures exists idx :: Embeds(q, t, idx)
    decreases |t|
  {
    if q == [] {
      assert Embeds(q, t, []);
    } else if q[0] == t[0] {
      SubsequenceEmbeds(q[1..], t[1..]);
      var idx :| Embeds(q[1..], t[1..], idx);
      assert Embeds(q, t, [0] + Shift(idx, 1));
    } else {
      SubsequenceEmbeds(q, t[1..]);
      var idx :| Embeds(q, t[1..], idx);
      assert Embeds(q, t, Shift(idx, 1));
    }
  }

  /** ... and says yes whenever an embedding exists. */
  lemma {:induction false} EmbeddingIsSubsequence(q: string, t: string, idx: seq<nat>)
    requires Embeds(q, t, idx)
    ensures IsSubsequence(q, t)
    decreases |t|
  {
    if q != [] {
      assert idx[0] < |t|;
      var down := seq(|idx|, k requires 0 <= k < |idx| => if idx[k] == 0 then 0 else idx[k] - 1);
      if q[0] == t[0] {
        assert forall k :: 1 <= k < |idx| ==> idx[k] >= 1 by {
          forall k | 1 <= k < |idx| ensures idx[k] >= 1 { assert idx[0] < idx[k]; }
        }
        assert Embeds(q[1..], t[1..], down[1..]);
        EmbeddingIsSubsequence(q[1..], t[1..], down[1..]);
      } else {
        assert idx[0] != 0;
        assert forall k :: 0 <= k < |idx| ==> idx[k] >= 1 by {
          forall k | 0 <= k < |idx| ensures idx[k] >= 1 {
            if k > 0 { assert idx[0] < idx[k]; }
          }
        }
        assert Embeds(q, t[1..], down);
        EmbeddingIsSubsequence(q, t[1..], down);
      }
    }
  }

  /** A subsequence is never longer than the string it is found in. */
  lemma {:induction false} SubsequenceLength(q: string, t: string)
    requires IsSubsequence(q, t)
    ensures |q| <= |t|
    decreases |t|
  {
    if q != [] {
      if q[0] == t[0] { SubsequenceLength(q[1..], t[1..]); } else { SubsequenceLength(q, t[1..]); }
    }
  }

  lemma {:induction false} SubsequenceOfItself(s: string)
    ensures IsSubsequence(s, s)
    decreases |s|
  {
    if s != [] { SubsequenceOfItself(s[1..]); }
  }

  /** Skipping a prefix of t that holds no q[0] does not change the answer. */
  lemma {:induction false} SkipMismatches(q: string, t: string, i: nat)
    requires q != [] && i <= |t|
    requires forall j :: 0 <= j < i ==> t[j] != q[0]
    ensures IsSubsequence(q, t) == IsSubsequence(q, t[i..])
  {
    if i > 0 {
      assert t[1..][i - 1..] == t[i..];
      SkipMismatches(q, t[1..], i - 1);
    }
  }

  /** fuzzy.MatchFold's rule: q matches t ignoring case (ASCII only). */
  predicate FoldMatch(q: string, t: string) {
    IsSubsequence(Lower(q), Lower(t))
  }

  /** fuzzy.MatchFold: the two length shortcuts, then the greedy scan that
      looks for each query character in what is left of the target. */
  method MatchFold(source: string, target: string) returns (ok: bool)
    ensures ok <==> exists idx :: Embeds(Lower(source), Lower(target), idx)
    ensures ok == FoldMatch(source, target)
  {
    var s, t := Lower(source), Lower(target);
    if |t| < |s| {
      if IsSubsequence(s, t) { SubsequenceLength(s, t); }
      ok := false;
    } else if |t| == |s| && s == t {
      SubsequenceOfItself(s);
      ok := true;
    } else {
      var k, rest := 0, t;
      ok := true;
      label Outer:
      while k < |s|
        invariant 0 <= k <= |s|
        invariant IsSubsequence(s, t) == IsSubsequence(s[k..], rest)
      {
        var i := 0;
        while i < |rest|
          invariant 0 <= i <= |rest|
          invariant forall j :: 0 <= j < i ==> rest[j] != s[k]
        {
          if s[k] == rest[i] {
            SkipMismatches(s[k..], rest, i);
            assert s[k..][1..] == s[k + 1..];
            rest, k := rest[i + 1..], k + 1;
            continue Outer;
          }
          i := i + 1;
        }
        SkipMismatches(s[k..], rest, i);
        ok := false;
        break;
      }
    }
    if ok {
      SubsequenceEmbeds(s, t);
    } else if exists idx :: Embeds(s, t, idx) {
      var idx :| Embeds(s, t, idx);
      EmbeddingIsSubsequence(s, t, idx);
    }
  }

  /** The match rule of Find for one stored name. */
  predicate Matches(query: string, name: string) {
    var qs, ns := Split(query), Split(name);
    |qs| == |ns| && forall i :: 0 <= i < |qs| ==> FoldMatch(qs[i], ns[i])
  }

  /** Case does not matter on either side. */
  lemma FoldMatchIgnoresCase(q: string, t: string)
    ensures FoldMatch(Lower(q), t) == FoldMatch(q, t) == FoldMatch(q, Lower(t))
  {
    LowerIdempotent(q);
    LowerIdempotent(t);
  }

  /** A name with a different number of segments never matches. */
  lemma SegmentCountMismatch(query: string, name: string)
    requires |Split(query)| != |Split(name)|
    ensures !Matches(query, name)
  {
  }

  lemma SplitsAs(s: string, segs: seq<string>)
    requires |segs| >= 1 && forall i :: 0 <= i < |segs| ==> '/' !in segs[i]
    requires Join(segs) == s
    ensures Split(s) == segs
  {
    SplitJoin(segs);
  }

  lemma FirstSegmentMatches()
    ensures FoldMatch("ab", "abcx")
  {
    assert Lower("ab") == "ab" && Lower("abcx") == "abcx";
    assert IsSubsequence("", "cx");
    assert IsSubsequence("b", "bcx");
  }

  lemma SecondSegmentMatches()
    ensures FoldMatch("cd", "cdy")
  {
    assert Lower("cd") == "cd" && Lower("cdy") == "cdy";
    assert IsSubsequence("", "y");
    assert IsSubsequence("d", "dy");
  }

  /** The worked example: "ab/cd" finds "abcx/cdy" ... */
  lemma FindExampleMatches()
    ensures Matches("ab/cd", "abcx/cdy")
  {
    SplitsAs("ab/cd", ["ab", "cd"]);
    SplitsAs("abcx/cdy", ["abcx", "cdy"]);
    FirstSegmentMatches();
    SecondSegmentMatches();
  }

  /** ... but not "abcx", which has one segment ... */
  lemma FindExampleSegmentCount()
    ensures !Matches("ab/cd", "abcx")
  {
    SplitsAs("ab/cd", ["ab", "cd"]);
    SplitsAs("abcx", ["abcx"]);
  }

  /** ... and not "zz/cdy", whose first segment has no "a". */
  lemma FindExampleFirstSegment()
    ensures !Matches("ab/cd", "zz/cdy")
  {
    SplitsAs("ab/cd", ["ab", "cd"]);
    SplitsAs("zz/cdy", ["zz", "cdy"]);
    assert Lower("ab") == "ab" && Lower("zz") == "zz";
    assert !IsSubsequence("ab", "");
    assert !IsSubsequence("ab", "z");
    assert !FoldMatch("ab", "zz");
  }
}
