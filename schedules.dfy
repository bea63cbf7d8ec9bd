/**
 A host's schedules array: a flat list alternating run loop and mode, one
 pair per (run loop, mode) the host is scheduled on. CFHostScheduleWithRunLoop
 adds a pair unless it is already present; CFHostUnscheduleFromRunLoop
 removes it if present. Each reports whether it changed the list.
 */
module Schedules {
  import opened HostTypes

  type Pair = (nat, string)

  /** Even positions hold run loops, odd positions modes, and the length is even. */
  ghost predicate Paired(s: seq<ScheduleItem>) {
    |s| % 2 == 0 && forall i :: 0 <= i < |s| ==> (s[i].RunLoop? <==> i % 2 == 0)
  }

  /** The (run loop, mode) pairs a paired list stands for, in order. */
  function Pairs(s: seq<ScheduleItem>): seq<Pair>
    requires Paired(s)
    decreases |s|
  {
    if |s| == 0 then []
    else
      assert s[1].Mode?;
      assert Paired(s[2..]) by {
        forall i | 0 <= i < |s[2..]| ensures s[2..][i].RunLoop? <==> i % 2 == 0 {
          assert s[2..][i] == s[i + 2];
        }
      }
      [(s[0].loop, s[1].mode)] + Pairs(s[2..])
  }

  /** The flat list of a sequence of pairs. */
  function Flatten(ps: seq<Pair>): seq<ScheduleItem> {
    if |ps| == 0 then [] else [RunLoop(ps[0].0), Mode(ps[0].1)] + Flatten(ps[1..])
  }

  /** Flattening the pairs of a list gives the list back. */
  lemma {:induction false} FlattenPairs(s: seq<ScheduleItem>)
    requires Paired(s)
    ensures Flatten(Pairs(s)) == s
    decreases |s|
  {
    if |s| > 0 {
      var ps := Pairs(s);
      assert ps[1..] == Pairs(s[2..]);
      FlattenPairs(s[2..]);
      assert s == [s[0], s[1]] + s[2..];
    }
  }

  /** A flattened list is paired and its pairs are the pairs flattened. */
  lemma {:induction false} PairsFlatten(ps: seq<Pair>)
    ensures Paired(Flatten(ps)) && Pairs(Flatten(ps)) == ps
    decreases |ps|
  {
    if |ps| > 0 {
      PairsFlatten(ps[1..]);
      var f := Flatten(ps);
      assert f[2..] == Flatten(ps[1..]);
      forall i | 0 <= i < |f| ensures f[i].RunLoop? <==> i % 2 == 0 {
        if i >= 2 {
          assert f[i] == Flatten(ps[1..])[i - 2];
        }
      }
      assert ps == [ps[0]] + ps[1..];
    }
  }

  /** The position of the first occurrence of p in ps. */
  function IndexOf(ps: seq<Pair>, p: Pair): (i: nat)
    requires p in ps
    ensures i < |ps| && ps[i] == p && p !in ps[..i]
  {
    if ps[0] == p then 0 else IndexOf(ps[1..], p) + 1
  }

  /** _SchedulesAddRunLoopAndMode: add the pair at the end unless present. */
  function Add(s: seq<ScheduleItem>, loop: nat, mode: string): (r: (seq<ScheduleItem>, bool))
    requires Paired(s)
    ensures Paired(r.0)
    ensures r.1 <==> (loop, mode) !in Pairs(s)
    ensures Pairs(r.0) == if r.1 then Pairs(s) + [(loop, mode)] else Pairs(s)
  {
    if (loop, mode) in Pairs(s) then (s, false)
    else
      var r := s + [RunLoop(loop), Mode(mode)];
      FlattenPairs(s);
      assert r == Flatten(Pairs(s) + [(loop, mode)]) by {
        FlattenAppend(Pairs(s), [(loop, mode)]);
      }
      PairsFlatten(Pairs(s) + [(loop, mode)]);
      (r, true)
  }

  /** _SchedulesRemoveRunLoopAndMode: remove the first occurrence of the pair, if any. */
  function Remove(s: seq<ScheduleItem>, loop: nat, mode: string): (r: (seq<ScheduleItem>, bool))
    requires Paired(s)
    ensures Paired(r.0)
    ensures r.1 <==> (loop, mode) in Pairs(s)
    ensures !r.1 ==> r.0 == s
    ensures r.1 ==> var i := IndexOf(Pairs(s), (loop, mode));
                    Pairs(r.0) == Pairs(s)[..i] + Pairs(s)[i + 1..]
  {
    var ps := Pairs(s);
    if (loop, mode) !in ps then (s, false)
    else
      var i := IndexOf(ps, (loop, mode));
      var rest := ps[..i] + ps[i + 1..];
      PairsFlatten(rest);
      (Flatten(rest), true)
  }

  lemma {:induction false} FlattenAppend(xs: seq<Pair>, ys: seq<Pair>)
    ensures Flatten(xs + ys) == Flatten(xs) + Flatten(ys)
    decreases |xs|
  {
    if |xs| > 0 {
      assert (xs + ys)[1..] == xs[1..] + ys;
      FlattenAppend(xs[1..], ys);
    } else {
      assert xs + ys == ys;
    }
  }

  /** Adding a pair and then removing it restores the list. */
  lemma AddThenRemove(s: seq<ScheduleItem>, loop: nat, mode: string)
    requires Paired(s)
    requires (loop, mode) !in Pairs(s)
    ensures Remove(Add(s, loop, mode).0, loop, mode) == (s, true)
  {
    var a := Add(s, loop, mode).0;
    var ps := Pairs(s);
    assert Pairs(a) == ps + [(loop, mode)];
    var i := IndexOf(Pairs(a), (loop, mode));
    assert i == |ps|;
    assert Pairs(a)[..i] + Pairs(a)[i + 1..] == ps;
    var r := Remove(a, loop, mode).0;
    assert Pairs(r) == ps;
    FlattenPairs(r);
    FlattenPairs(s);
  }
}
