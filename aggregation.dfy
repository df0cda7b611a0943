/** The arithmetic of `final_score`: which of the checkpoint records it counts
    (the first one of each round number in newest-first order), the sums of
    their scores, and the largest round number among them. */
module Aggregation {
  import opened Records
  import opened Store

  /** The round numbers of `s`, in order (the list `recorded_rounds`). */
  function RoundsOf(s: seq<ScoreRecord>): seq<int> {
    seq(|s|, i requires 0 <= i < |s| => s[i].rounds)
  }

  /** `s[i]` is the first record of its round number in `s`. */
  predicate FirstOfRound(s: seq<ScoreRecord>, i: int) {
    0 <= i < |s| && forall j :: 0 <= j < i ==> s[j].rounds != s[i].rounds
  }

  /** The records the loop of `final_score` counts, in the order it counts
      them: a record is skipped when a record of its round was counted before. */
  function FirstSeen(s: seq<ScoreRecord>): seq<ScoreRecord> {
    if s == [] then []
    else
      var kept := FirstSeen(s[..|s| - 1]);
      var d := s[|s| - 1];
      if d.rounds in RoundsOf(kept) then kept else kept + [d]
  }

  function SumAi(s: seq<ScoreRecord>): int {
    if s == [] then 0 else SumAi(s[..|s| - 1]) + s[|s| - 1].aiScore
  }

  function SumPlayer(s: seq<ScoreRecord>): int {
    if s == [] then 0 else SumPlayer(s[..|s| - 1]) + s[|s| - 1].playerScore
  }

  /** Python's `max` of a non-empty list. */
  function MaxOf(xs: seq<int>): (m: int)
    requires xs != []
    ensures m in xs
    ensures forall i :: 0 <= i < |xs| ==> xs[i] <= m
  {
    if |xs| == 1 then xs[0]
    else
      var m := MaxOf(xs[1..]);
      assert forall i :: 1 <= i < |xs| ==> xs[i] == xs[1..][i - 1];
      if xs[0] >= m then xs[0] else m
  }

  /** One more record extends the counted list by that record exactly when its
      round number has not been counted yet. */
  lemma FirstSeenStep(s: seq<ScoreRecord>, i: nat)
    requires i < |s|
    ensures FirstSeen(s[..i + 1]) ==
            if s[i].rounds in RoundsOf(FirstSeen(s[..i])) then FirstSeen(s[..i]) else FirstSeen(s[..i]) + [s[i]]
  {
    assert s[..i + 1][..i] == s[..i];
  }

  /** Counting one more record adds its round, its AI score and its player score. */
  lemma TallyAppend(t: seq<ScoreRecord>, d: ScoreRecord)
    ensures RoundsOf(t + [d]) == RoundsOf(t) + [d.rounds]
    ensures SumAi(t + [d]) == SumAi(t) + d.aiScore
    ensures SumPlayer(t + [d]) == SumPlayer(t) + d.playerScore
  {
    assert (t + [d])[..|t|] == t;
  }

  /** Every round number of the input is counted, and no other. */
  lemma {:induction false} FirstSeenRounds(s: seq<ScoreRecord>)
    ensures forall x :: x in RoundsOf(FirstSeen(s)) <==> x in RoundsOf(s)
  {
    if s != [] {
      var n := |s| - 1;
      var p, d := s[..n], s[n];
      FirstSeenRounds(p);
      assert RoundsOf(s) == RoundsOf(p) + [d.rounds];
      if d.rounds !in RoundsOf(FirstSeen(p)) {
        assert RoundsOf(FirstSeen(s)) == RoundsOf(FirstSeen(p)) + [d.rounds];
      }
    }
  }

  /** No two counted records share a round number. */
  lemma {:induction false} FirstSeenDistinct(s: seq<ScoreRecord>)
    ensures forall a, b :: 0 <= a < b < |FirstSeen(s)| ==> FirstSeen(s)[a].rounds != FirstSeen(s)[b].rounds
  {
    if s != [] {
      var n := |s| - 1;
      var kept, d := FirstSeen(s[..n]), s[n];
      FirstSeenDistinct(s[..n]);
      if d.rounds !in RoundsOf(kept) {
        var f := kept + [d];
        forall a, b | 0 <= a < b < |f| ensures f[a].rounds != f[b].rounds {
          if b == |kept| {
            assert RoundsOf(kept)[a] == f[a].rounds;
          } else {
            assert f[a] == kept[a] && f[b] == kept[b];
          }
        }
      }
    }
  }

  /** Dropping the last record does not change which earlier records are the
      first of their round. */
  lemma FirstOfRoundPrefix(s: seq<ScoreRecord>, i: int)
    requires 0 <= i < |s| - 1
    ensures FirstOfRound(s, i) <==> FirstOfRound(s[..|s| - 1], i)
  {
    assert forall j :: 0 <= j <= i ==> s[j] == s[..|s| - 1][j];
  }

  /** `x` is the first record of its round number in `s`. */
  predicate IsFirstOfItsRound(s: seq<ScoreRecord>, x: ScoreRecord) {
    exists i | 0 <= i < |s| :: FirstOfRound(s, i) && s[i] == x
  }

  /** Each counted record is the first of its round number in the input. */
  lemma {:induction false} FirstSeenAreFirst(s: seq<ScoreRecord>)
    ensures forall k :: 0 <= k < |FirstSeen(s)| ==> IsFirstOfItsRound(s, FirstSeen(s)[k])
  {
    if s != [] {
      var n := |s| - 1;
      var p, d := s[..n], s[n];
      var kept, f := FirstSeen(p), FirstSeen(s);
      FirstSeenAreFirst(p);
      forall k | 0 <= k < |f| ensures IsFirstOfItsRound(s, f[k]) {
        if k < |kept| {
          assert f[k] == kept[k];
          assert IsFirstOfItsRound(p, kept[k]);
          var i :| 0 <= i < |p| && FirstOfRound(p, i) && p[i] == kept[k];
          FirstOfRoundPrefix(s, i);
          assert FirstOfRound(s, i) && s[i] == f[k];
        } else {
          assert f == kept + [d] && f[k] == d;
          assert d.rounds !in RoundsOf(kept);
          FirstSeenRounds(p);
          assert FirstOfRound(s, n) by {
            forall j | 0 <= j < n ensures s[j].rounds != d.rounds {
              assert RoundsOf(p)[j] == p[j].rounds == s[j].rounds;
            }
          }
          assert s[n] == f[k];
        }
      }
    } else {
      assert FirstSeen(s) == [];
    }
  }

  /** The first record of each round number in the input is counted. */
  lemma {:induction false} FirstsAreCounted(s: seq<ScoreRecord>)
    ensures forall i :: FirstOfRound(s, i) ==> s[i] in FirstSeen(s)
  {
    if s != [] {
      var n := |s| - 1;
      var p, d := s[..n], s[n];
      var kept, f := FirstSeen(p), FirstSeen(s);
      FirstsAreCounted(p);
      assert forall x :: x in kept ==> x in f;
      forall i | FirstOfRound(s, i) ensures s[i] in f {
        if i < n {
          FirstOfRoundPrefix(s, i);
          assert s[i] == p[i];
        } else {
          assert d.rounds !in RoundsOf(kept) by {
            FirstSeenRounds(p);
            assert forall j :: 0 <= j < n ==> RoundsOf(p)[j] != d.rounds;
          }
          assert f == kept + [d];
        }
      }
    }
  }

  /** Applied to a newest-first list, every counted record is at least as new
      as every record of the same round number: older resubmissions are skipped. */
  lemma FirstSeenKeepsNewest(s: seq<ScoreRecord>)
    requires NewestFirst(s)
    ensures forall k, j :: 0 <= k < |FirstSeen(s)| && 0 <= j < |s| && s[j].rounds == FirstSeen(s)[k].rounds ==>
              s[j].createdAt <= FirstSeen(s)[k].createdAt
  {
    FirstSeenAreFirst(s);
    var f := FirstSeen(s);
    forall k, j | 0 <= k < |f| && 0 <= j < |s| && s[j].rounds == f[k].rounds
      ensures s[j].createdAt <= f[k].createdAt
    {
      assert IsFirstOfItsRound(s, f[k]);
      var i :| 0 <= i < |s| && FirstOfRound(s, i) && s[i] == f[k];
      assert i <= j;
    }
  }

  /** A list of distinct numbers drawn from `S` is no longer than `S` is large. */
  lemma {:induction false} DistinctWithin(xs: seq<int>, S: set<int>)
    requires forall a, b :: 0 <= a < b < |xs| ==> xs[a] != xs[b]
    requires forall a :: 0 <= a < |xs| ==> xs[a] in S
    ensures |xs| <= |S|
  {
    if xs != [] {
      var n := |xs| - 1;
      DistinctWithin(xs[..n], S - {xs[n]});
    }
  }

  /** With only checkpoint rounds in the input, at most three records are counted. */
  lemma FirstSeenAtMostThree(s: seq<ScoreRecord>)
    requires forall i :: 0 <= i < |s| ==> s[i].rounds in CHECKPOINT_ROUNDS
    ensures |FirstSeen(s)| <= 3
  {
    FirstSeenAreFirst(s);
    FirstSeenDistinct(s);
    var f := FirstSeen(s);
    var rs := RoundsOf(f);
    forall a | 0 <= a < |rs| ensures rs[a] in CHECKPOINT_ROUNDS {
      assert IsFirstOfItsRound(s, f[a]);
      var i :| FirstOfRound(s, i) && s[i] == f[a];
    }
    DistinctWithin(rs, CHECKPOINT_ROUNDS);
  }

  /** Something is counted exactly when the input is non-empty, and the largest
      counted round number is the largest round number of the input. */
  lemma MaxCountedRound(s: seq<ScoreRecord>)
    ensures FirstSeen(s) == [] <==> s == []
    ensures s != [] ==> MaxOf(RoundsOf(FirstSeen(s))) in RoundsOf(s)
    ensures s != [] ==> forall i :: 0 <= i < |s| ==> s[i].rounds <= MaxOf(RoundsOf(FirstSeen(s)))
  {
    FirstSeenRounds(s);
    if s != [] {
      var rs := RoundsOf(FirstSeen(s));
      assert RoundsOf(s)[0] == s[0].rounds;
      var m := MaxOf(rs);
      forall i | 0 <= i < |s| ensures s[i].rounds <= m {
        assert RoundsOf(s)[i] == s[i].rounds;
        assert s[i].rounds in rs;
      }
    }
  }

  /** Over checkpoint records only: at most three are counted, and when any
      is, the largest counted round is a checkpoint round that no input record
      exceeds. */
  lemma CheckpointTally(s: seq<ScoreRecord>)
    requires forall i :: 0 <= i < |s| ==> s[i].rounds in CHECKPOINT_ROUNDS
    ensures |FirstSeen(s)| <= 3
    ensures FirstSeen(s) == [] <==> s == []
    ensures s != [] ==> MaxOf(RoundsOf(FirstSeen(s))) in CHECKPOINT_ROUNDS
    ensures s != [] ==> forall i :: 0 <= i < |s| ==> s[i].rounds <= MaxOf(RoundsOf(FirstSeen(s)))
  {
    FirstSeenAtMostThree(s);
    MaxCountedRound(s);
    if s != [] {
      var j :| 0 <= j < |s| && RoundsOf(s)[j] == MaxOf(RoundsOf(FirstSeen(s)));
    }
  }

  /** A record whose round number is not yet counted extends a list that is
      counted in full. */
  lemma FirstSeenExtend(p: seq<ScoreRecord>, d: ScoreRecord)
    requires FirstSeen(p) == p && d.rounds !in RoundsOf(p)
    ensures FirstSeen(p + [d]) == p + [d]
  {
    assert (p + [d])[..|p|] == p;
  }

  /** Without resubmissions every record is counted, in order. */
  lemma {:induction false} FirstSeenOfDistinct(s: seq<ScoreRecord>)
    requires forall a, b :: 0 <= a < b < |s| ==> s[a].rounds != s[b].rounds
    ensures FirstSeen(s) == s
  {
    if s != [] {
      var n := |s| - 1;
      var p := s[..n];
      assert s == p + [s[n]];
      assert forall a, b :: 0 <= a < b < |p| ==> p[a].rounds != p[b].rounds by {
        assert forall a :: 0 <= a < n ==> p[a] == s[a];
      }
      FirstSeenOfDistinct(p);
      assert s[n].rounds !in RoundsOf(p) by {
        assert forall a :: 0 <= a < n ==> RoundsOf(p)[a] == s[a].rounds != s[n].rounds;
      }
      FirstSeenExtend(p, s[n]);
    }
  }
}
