/** The knowledge-base page: statistics over the recorded decisions, the
    decision-type filter, the best decisions, and the best decisions cut
    down to one per strategic pattern. */
module KnowledgeBase {
  import opened Seqs
  import opened Cards
  import opened Records

  /** The counts shown on the page. */
  datatype Stats = Stats(totalMoves: nat, successfulMoves: nat, attackMoves: nat, defenseMoves: nat)

  function WasSuccessful(): Knowledge -> bool
  {
    (k: Knowledge) => k.wasSuccessful
  }

  function OfType(decisionType: string): Knowledge -> bool
  {
    (k: Knowledge) => k.decisionType == decisionType
  }

  /** Two tests that never hold together pick out at most the whole
      sequence between them. */
  lemma {:induction false} DisjointCounts(s: seq<Knowledge>, f: Knowledge -> bool, g: Knowledge -> bool)
    requires forall x :: !(f(x) && g(x))
    ensures |Filter(s, f)| + |Filter(s, g)| <= |s|
  {
    if s != [] {
      DisjointCounts(s[1..], f, g);
    }
  }

  /** `stats`: each count is at most the number of records, and a record
      is never counted both as an attack and as a defence; a count is zero
      exactly when no record qualifies. */
  function KnowledgeStats(records: seq<Knowledge>): (st: Stats)
    ensures st.totalMoves == |records|
    ensures st.successfulMoves <= st.totalMoves
    ensures st.attackMoves + st.defenseMoves <= st.totalMoves
    ensures st.successfulMoves == 0 <==> forall k :: k in records ==> !k.wasSuccessful
    ensures st.attackMoves == 0 <==> forall k :: k in records ==> k.decisionType != "attack"
    ensures st.defenseMoves == 0 <==> forall k :: k in records ==> k.decisionType != "defense"
  {
    DisjointCounts(records, OfType("attack"), OfType("defense"));
    Stats(|records|, Count(records, WasSuccessful()),
          Count(records, OfType("attack")), Count(records, OfType("defense")))
  }

  /** `filteredKnowledge`: every record for `all`; otherwise exactly the
      records of the selected decision type, each as often as it occurs
      and in the same order. */
  function FilteredKnowledge(records: seq<Knowledge>, selectedFilter: string): (r: seq<Knowledge>)
    ensures selectedFilter == "all" ==> r == records
    ensures selectedFilter != "all" ==>
              && Subsequence(r, records)
              && forall k :: multiset(r)[k] == if k.decisionType == selectedFilter then multiset(records)[k] else 0
  {
    if selectedFilter == "all" then records
    else
      var r := Filter(records, OfType(selectedFilter));
      FilterSubsequence(records, OfType(selectedFilter));
      FilterMultiset(records, OfType(selectedFilter));
      r
  }

  /** A decision worth showing: a card was played, the reward is above
      one half and the move succeeded. */
  predicate IsBest(k: Knowledge)
  {
    k.cardPlayed.Some? && k.reward > 0.5 && k.wasSuccessful
  }

  function Best(): Knowledge -> bool
  {
    (k: Knowledge) => IsBest(k)
  }

  /** The cards of a prefix are among the cards of the whole. */
  lemma TakeMultiset(s: seq<Knowledge>, k: nat)
    ensures multiset(Take(s, k)) <= multiset(s)
  {
    if k < |s| {
      assert s == s[..k] + s[k..];
    }
  }

  /** `bestDecisions`: the records worth showing, sorted, and at most 15
      of them. The comparator treats rewards closer than 0.1 as equal, so
      it is not an order and the sort may put the records in any order;
      the order is therefore left open. Every record shown is worth
      showing and comes from the records, and when there are at most 15
      such records all of them are shown. */
  method BestDecisions(records: seq<Knowledge>) returns (best: seq<Knowledge>)
    ensures |best| <= 15 && |best| == MinInt(15, Count(records, Best()))
    ensures forall k :: k in best ==> IsBest(k)
    ensures multiset(best) <= multiset(records)
    ensures Count(records, Best()) <= 15 ==> multiset(best) == multiset(Filter(records, Best()))
  {
    var good := Filter(records, Best());
    FilterMultiset(records, Best());
    var sorted :| multiset(sorted) == multiset(good);
    assert |sorted| == |multiset(good)| == |good|;
    best := Take(sorted, 15);
    TakeMultiset(sorted, 15);
    forall k | k in best
      ensures IsBest(k)
    {
      assert k in multiset(good);
    }
  }

  /** The pattern `${decision_type}_${floor(rank / 3)}` of a decision. The
      band is a number, which holds no underscore, so two patterns are the
      same string exactly when their parts are equal. */
  datatype StrategyPattern = StrategyPattern(decisionType: string, rankBand: int)

  /** Every decision has a card, as the best decisions do. */
  predicate HasCards(s: seq<Knowledge>)
  {
    forall k :: k in s ==> k.cardPlayed.Some?
  }

  /** Dafny's division rounds down for a positive divisor, as `Math.floor`
      does. A decision without a card has no pattern in the page (reading
      its rank fails); it gets band 0 here, and the scan below is only
      ever given decisions with cards. */
  function PatternOf(k: Knowledge): (p: StrategyPattern)
    ensures p.decisionType == k.decisionType
    ensures k.cardPlayed.Some? ==> 3 * p.rankBand <= k.cardPlayed.value.rank < 3 * p.rankBand + 3
  {
    StrategyPattern(k.decisionType, if k.cardPlayed.Some? then k.cardPlayed.value.rank / 3 else 0)
  }

  /** The decisions of s, in order, whose pattern has not been seen
      before: neither in `seen` nor in an earlier decision of s. No two
      kept decisions share a pattern. */
  function FirstOfEachPattern(s: seq<Knowledge>, seen: set<StrategyPattern>): (r: seq<Knowledge>)
    ensures forall k :: k in r ==> k in s && PatternOf(k) !in seen
    ensures forall i, j :: 0 <= i < j < |r| ==> PatternOf(r[i]) != PatternOf(r[j])
  {
    if s == [] then []
    else
      var p := PatternOf(s[0]);
      if p in seen then FirstOfEachPattern(s[1..], seen)
      else
        var rest := FirstOfEachPattern(s[1..], seen + {p});
        var r := [s[0]] + rest;
        assert forall j :: 0 < j < |r| ==> r[j] == rest[j - 1];
        r
  }

  /** The decisions kept appear in s in the same order. */
  lemma {:induction false} FirstOfEachPatternSubsequence(s: seq<Knowledge>, seen: set<StrategyPattern>)
    ensures Subsequence(FirstOfEachPattern(s, seen), s)
  {
    if s != [] {
      var p := PatternOf(s[0]);
      if p in seen {
        FirstOfEachPatternSubsequence(s[1..], seen);
        SubsequenceSkip(FirstOfEachPattern(s[1..], seen), s[1..], s[0]);
        assert s == [s[0]] + s[1..];
      } else {
        FirstOfEachPatternSubsequence(s[1..], seen + {p});
        assert ([s[0]] + FirstOfEachPattern(s[1..], seen + {p}))[1..] == FirstOfEachPattern(s[1..], seen + {p});
      }
    }
  }

  /** Every pattern of s that was not seen before is kept. */
  lemma {:induction false} FirstOfEachPatternCovers(s: seq<Knowledge>, seen: set<StrategyPattern>)
    ensures forall k :: k in s ==> PatternOf(k) in seen || exists x :: x in FirstOfEachPattern(s, seen) && PatternOf(x) == PatternOf(k)
  {
    forall k | k in s && PatternOf(k) !in seen
      ensures exists x :: x in FirstOfEachPattern(s, seen) && PatternOf(x) == PatternOf(k)
    {
      var i :| 0 <= i < |s| && s[i] == k;
      FirstOfEachPatternCoversAt(s, seen, i);
    }
  }

  /** The decision at position i, when its pattern was not seen, has its
      pattern represented among the decisions kept. */
  lemma {:induction false} FirstOfEachPatternCoversAt(s: seq<Knowledge>, seen: set<StrategyPattern>, i: nat)
    requires i < |s| && PatternOf(s[i]) !in seen
    ensures exists x :: x in FirstOfEachPattern(s, seen) && PatternOf(x) == PatternOf(s[i])
    decreases i
  {
    var p := PatternOf(s[0]);
    if p !in seen {
      var rest := FirstOfEachPattern(s[1..], seen + {p});
      assert FirstOfEachPattern(s, seen) == [s[0]] + rest;
      if PatternOf(s[i]) == p {
        assert s[0] in FirstOfEachPattern(s, seen);
      } else {
        assert s[1..][i - 1] == s[i];
        FirstOfEachPatternCoversAt(s[1..], seen + {p}, i - 1);
        var x :| x in rest && PatternOf(x) == PatternOf(s[i]);
        assert x in FirstOfEachPattern(s, seen);
      }
    } else {
      assert i != 0;
      assert s[1..][i - 1] == s[i];
      FirstOfEachPatternCoversAt(s[1..], seen, i - 1);
    }
  }

  /** Each decision kept is the first decision of s with its pattern. */
  lemma {:induction false} FirstOfEachPatternIsFirst(s: seq<Knowledge>, seen: set<StrategyPattern>)
    ensures forall x :: x in FirstOfEachPattern(s, seen) ==>
              exists p :: 0 <= p < |s| && s[p] == x && forall q :: 0 <= q < p ==> PatternOf(s[q]) != PatternOf(x)
  {
    if s != [] {
      var p0 := PatternOf(s[0]);
      var seen' := if p0 in seen then seen else seen + {p0};
      FirstOfEachPatternIsFirst(s[1..], seen');
      forall x | x in FirstOfEachPattern(s, seen)
        ensures exists p :: 0 <= p < |s| && s[p] == x && forall q :: 0 <= q < p ==> PatternOf(s[q]) != PatternOf(x)
      {
        if p0 !in seen && x == s[0] {
          assert s[0] == x;
        } else {
          assert x in FirstOfEachPattern(s[1..], seen');
          var p :| 0 <= p < |s[1..]| && s[1..][p] == x
                   && forall q :: 0 <= q < p ==> PatternOf(s[1..][q]) != PatternOf(x);
          assert PatternOf(x) !in seen';
          forall q | 0 <= q < p + 1
            ensures PatternOf(s[q]) != PatternOf(x)
          {
            if q > 0 {
              assert s[q] == s[1..][q - 1];
            }
          }
          assert s[p + 1] == x;
        }
      }
    }
  }

  /** One step of the scan: a decision whose pattern was seen is skipped,
      any other is kept and its pattern seen. */
  lemma FirstOfEachPatternStep(s: seq<Knowledge>, i: nat, seen: set<StrategyPattern>)
    requires i < |s|
    ensures var p := PatternOf(s[i]);
      FirstOfEachPattern(s[i..], seen)
      == if p in seen then FirstOfEachPattern(s[i + 1..], seen)
         else [s[i]] + FirstOfEachPattern(s[i + 1..], seen + {p})
  {
    assert s[i..][0] == s[i] && s[i..][1..] == s[i + 1..];
  }

  /** One turn of the `uniqueStrategies` loop keeps the kept decisions
      followed by the rest of the scan equal to the whole scan. */
  lemma ScanTurn(s: seq<Knowledge>, i: nat, seen: set<StrategyPattern>, kept: seq<Knowledge>, all: seq<Knowledge>)
    requires i < |s| && kept + FirstOfEachPattern(s[i..], seen) == all
    ensures var p := PatternOf(s[i]);
      && (p in seen ==> kept + FirstOfEachPattern(s[i + 1..], seen) == all)
      && (p !in seen ==> (kept + [s[i]]) + FirstOfEachPattern(s[i + 1..], seen + {p}) == all)
  {
    FirstOfEachPatternStep(s, i, seen);
    var p := PatternOf(s[i]);
    if p !in seen {
      var rest := FirstOfEachPattern(s[i + 1..], seen + {p});
      assert (kept + [s[i]]) + rest == kept + ([s[i]] + rest);
    }
  }

  /** `uniqueStrategies`: the scan over the best decisions with a set of
      seen patterns, keeping a decision when its pattern is new and
      stopping once ten are kept. It keeps the first ten decisions (or
      all, if fewer) whose patterns are new. */
  method UniqueStrategies(bestDecisions: seq<Knowledge>) returns (uniqueStrategies: seq<Knowledge>)
    requires HasCards(bestDecisions)
    ensures uniqueStrategies == Take(FirstOfEachPattern(bestDecisions, {}), 10)
  {
    ghost var all := FirstOfEachPattern(bestDecisions, {});
    uniqueStrategies := [];
    var seenPatterns: set<StrategyPattern> := {};
    assert bestDecisions[0..] == bestDecisions;
    for i := 0 to |bestDecisions|
      invariant uniqueStrategies + FirstOfEachPattern(bestDecisions[i..], seenPatterns) == all
      invariant |uniqueStrategies| < 10
    {
      var decision := bestDecisions[i];
      var pattern := PatternOf(decision);
      ScanTurn(bestDecisions, i, seenPatterns, uniqueStrategies, all);
      if pattern !in seenPatterns {
        seenPatterns := seenPatterns + {pattern};
        uniqueStrategies := uniqueStrategies + [decision];
        if |uniqueStrategies| >= 10 {
          TakeKept(all, uniqueStrategies, FirstOfEachPattern(bestDecisions[i + 1..], seenPatterns));
          return;
        }
      }
    }
    assert bestDecisions[|bestDecisions|..] == [];
    TakeKept(all, uniqueStrategies, []);
  }

  /** The scan stops with ten decisions kept, or with nothing left to
      scan: what it kept is then the first ten of the whole scan. */
  lemma TakeKept(all: seq<Knowledge>, kept: seq<Knowledge>, rest: seq<Knowledge>)
    requires all == kept + rest && |kept| <= 10 && (|kept| == 10 || rest == [])
    ensures Take(all, 10) == kept
  {
    if |kept| == 10 {
      assert all[..10] == kept;
    }
  }

  /** `displayBest`: the unique strategies when there are any, otherwise
      the first ten best decisions. */
  function DisplayBest(uniqueStrategies: seq<Knowledge>, bestDecisions: seq<Knowledge>): (r: seq<Knowledge>)
    ensures r == [] <==> uniqueStrategies == [] && bestDecisions == []
    ensures forall k :: k in r ==> k in uniqueStrategies || k in bestDecisions
  {
    if |uniqueStrategies| > 0 then uniqueStrategies
    else
      assert bestDecisions != [] ==> bestDecisions[0] in Take(bestDecisions, 10);
      Take(bestDecisions, 10)
  }

  /** The page shows something exactly when there is a best decision:
      the first best decision always starts the unique strategies. */
  lemma {:induction false} DisplayBestEmpty(bestDecisions: seq<Knowledge>)
    ensures var unique := Take(FirstOfEachPattern(bestDecisions, {}), 10);
      && (bestDecisions != [] ==> unique != [] && unique[0] == bestDecisions[0])
      && (DisplayBest(unique, bestDecisions) == [] <==> bestDecisions == [])
  {
    if bestDecisions != [] {
      var s := bestDecisions;
      var empty: set<StrategyPattern> := {};
      assert FirstOfEachPattern(s, empty) == [s[0]] + FirstOfEachPattern(s[1..], empty + {PatternOf(s[0])});
    }
  }
}
