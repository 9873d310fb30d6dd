/** The target-removal pass of one game tick. The game walks its list of targets
    with an index, removes a target whose bounds intersect the ball's in place and
    then advances the index anyway, so the target that moved into the removed one's
    slot is not examined in that pass. SweepFrom follows that loop step by step;
    Removed and Kept describe the same pass by the targets' original positions. */
module Targets {
  import opened Geometry

  /** The outcome of a pass: the targets left, in order, and how many were removed. */
  datatype Sweep = Sweep(survivors: seq<Box>, removed: nat)

  /** The removal loop run on the current list ts from index i on. */
  function SweepFrom(ts: seq<Box>, ball: Box, i: nat): (p: Sweep)
    ensures |p.survivors| + p.removed == |ts|
    decreases |ts| - i
  {
    if i >= |ts| then Sweep(ts, 0)
    else if Intersects(ball, ts[i]) then
      var rest := SweepFrom(ts[..i] + ts[i + 1..], ball, i + 1);
      Sweep(rest.survivors, rest.removed + 1)
    else
      SweepFrom(ts, ball, i + 1)
  }

  /** Which of the targets ts the pass removes, by original position, when the
      target before ts[0] was (afterRemoval) or was not removed. */
  function RemovedFrom(ts: seq<Box>, ball: Box, afterRemoval: bool): (f: seq<bool>)
    ensures |f| == |ts|
    ensures |ts| > 0 ==> (f[0] <==> !afterRemoval && Intersects(ball, ts[0]))
    ensures forall j :: 0 < j < |ts| ==> (f[j] <==> !f[j - 1] && Intersects(ball, ts[j]))
  {
    if ts == [] then []
    else
      var hit := !afterRemoval && Intersects(ball, ts[0]);
      [hit] + RemovedFrom(ts[1..], ball, hit)
  }

  /** Which targets one pass removes: the first target goes exactly when its bounds
      intersect the ball's, and every later target j goes exactly when its bounds
      intersect the ball's and target j - 1 was not removed in the same pass. */
  function Removed(ts: seq<Box>, ball: Box): (f: seq<bool>)
    ensures |f| == |ts|
    ensures |ts| > 0 ==> (f[0] <==> Intersects(ball, ts[0]))
    ensures forall j :: 0 < j < |ts| ==> (f[j] <==> Intersects(ball, ts[j]) && !f[j - 1])
  {
    RemovedFrom(ts, ball, false)
  }

  /** The number of true flags. */
  function Count(f: seq<bool>): nat
  {
    if f == [] then 0 else (if f[0] then 1 else 0) + Count(f[1..])
  }

  /** The targets whose flag is false, in their original order. */
  function Kept(ts: seq<Box>, removed: seq<bool>): (s: seq<Box>)
    requires |removed| == |ts|
    ensures |s| + Count(removed) == |ts|
  {
    if ts == [] then []
    else (if removed[0] then [] else [ts[0]]) + Kept(ts[1..], removed[1..])
  }

  /** s is obtained from t by deleting elements, keeping the order of the rest. */
  predicate IsSubsequence(s: seq<Box>, t: seq<Box>)
    decreases |t|
  {
    if s == [] then true
    else if t == [] then false
    else if s[0] == t[0] then IsSubsequence(s[1..], t[1..])
    else IsSubsequence(s, t[1..])
  }

  /** Removing flagged targets keeps the survivors in their original relative order. */
  lemma {:induction false} KeptIsSubsequence(ts: seq<Box>, removed: seq<bool>)
    requires |removed| == |ts|
    ensures IsSubsequence(Kept(ts, removed), ts)
    decreases |ts|
  {
    if ts != [] {
      KeptIsSubsequence(ts[1..], removed[1..]);
      var rest := Kept(ts[1..], removed[1..]);
      if !removed[0] {
        assert Kept(ts, removed) == [ts[0]] + rest;
        assert ([ts[0]] + rest)[1..] == rest;
      } else {
        assert Kept(ts, removed) == rest;
        SubsequenceOfTail(rest, ts);
      }
    }
  }

  lemma {:induction false} SubsequenceOfTail(s: seq<Box>, t: seq<Box>)
    requires t != [] && IsSubsequence(s, t[1..])
    ensures IsSubsequence(s, t)
    decreases |t|, 1
  {
    if s != [] && s[0] == t[0] {
      SubsequenceDropHead(s, t[1..]);
    }
  }

  lemma {:induction false} SubsequenceDropHead(s: seq<Box>, t: seq<Box>)
    requires s != [] && IsSubsequence(s, t)
    ensures IsSubsequence(s[1..], t)
    decreases |t|, 2
  {
    if s[0] != t[0] {
      SubsequenceDropHead(s, t[1..]);
    }
    if s[1..] != [] {
      SubsequenceOfTail(s[1..], t);
    }
  }

  /** Running the loop from index |a| leaves the prefix a alone and treats the rest
      as a pass of its own. */
  lemma {:induction false} SweepKeepsPrefix(a: seq<Box>, b: seq<Box>, ball: Box)
    ensures SweepFrom(a + b, ball, |a|)
         == Sweep(a + SweepFrom(b, ball, 0).survivors, SweepFrom(b, ball, 0).removed)
    decreases |b|
  {
    if b == [] {
      assert a + b == a;
    } else if Intersects(ball, b[0]) {
      assert (a + b)[..|a|] + (a + b)[|a| + 1..] == a + b[1..];
      if |b| == 1 {
        assert a + b[1..] == a;
        assert b[..0] + b[1..] == [];
      } else {
        assert b[..0] + b[1..] == [b[1]] + b[2..];
        assert a + b[1..] == (a + [b[1]]) + b[2..];
        SweepKeepsPrefix(a + [b[1]], b[2..], ball);
        SweepKeepsPrefix([b[1]], b[2..], ball);
      }
    } else {
      assert a + b == (a + [b[0]]) + b[1..];
      assert b == [b[0]] + b[1..];
      SweepKeepsPrefix(a + [b[0]], b[1..], ball);
      SweepKeepsPrefix([b[0]], b[1..], ball);
    }
  }

  /** The in-place loop removes exactly the targets Removed flags, keeps the others in
      their original order, and removes as many targets as Removed flags. */
  lemma {:induction false} SweepIsReference(ts: seq<Box>, ball: Box)
    ensures SweepFrom(ts, ball, 0) == Sweep(Kept(ts, Removed(ts, ball)), Count(Removed(ts, ball)))
    decreases |ts|
  {
    var f := RemovedFrom(ts, ball, false);
    if ts == [] {
    } else if Intersects(ball, ts[0]) {
      assert ts[..0] + ts[1..] == ts[1..];
      if |ts| == 1 {
      } else {
        assert ts[1..] == [ts[1]] + ts[2..];
        SweepKeepsPrefix([ts[1]], ts[2..], ball);
        SweepIsReference(ts[2..], ball);
        var g := RemovedFrom(ts[2..], ball, false);
        assert f == [true] + RemovedFrom(ts[1..], ball, true);
        assert RemovedFrom(ts[1..], ball, true) == [false] + g;
        assert f[1..] == [false] + g;
        assert Kept(ts, f) == Kept(ts[1..], f[1..]);
        assert Kept(ts[1..], f[1..]) == [ts[1]] + Kept(ts[2..], g);
        assert Count(f) == 1 + Count([false] + g);
        assert Count([false] + g) == Count(g);
      }
    } else {
      assert ts == [ts[0]] + ts[1..];
      SweepKeepsPrefix([ts[0]], ts[1..], ball);
      SweepIsReference(ts[1..], ball);
      assert f == [false] + RemovedFrom(ts[1..], ball, false);
    }
  }

  /** Removed targets are never adjacent, so one pass removes at most every other target. */
  lemma {:induction false} AtMostEveryOther(ts: seq<Box>, ball: Box, afterRemoval: bool)
    ensures 2 * Count(RemovedFrom(ts, ball, afterRemoval)) <= |ts| + (if afterRemoval then 0 else 1)
    decreases |ts|
  {
    if ts != [] {
      var hit := !afterRemoval && Intersects(ball, ts[0]);
      AtMostEveryOther(ts[1..], ball, hit);
    }
  }
}
