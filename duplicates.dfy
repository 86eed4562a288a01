/** `findDuplicates` of the AI strategy engine: the hand's cards grouped
    by rank, keeping only ranks that occur at least twice. */
module DuplicateRanks {
  import opened Seqs
  import opened Cards
  import opened Rules

  /** The dictionary `findDuplicates` builds: each rank maps to the cards of
      that rank in `prefix`, in order, and ranks absent from `prefix` are
      absent from the dictionary. */
  ghost predicate GroupsOf(prefix: seq<Card>, groups: map<Rank, seq<Card>>)
  {
    forall r: Rank :: Filter(prefix, RankIs(r)) == if r in groups then groups[r] else []
  }

  /** Pushing a card onto its rank's group, creating the group if needed. */
  function AddToGroup(groups: map<Rank, seq<Card>>, c: Card): (g: map<Rank, seq<Card>>)
    ensures g.Keys == groups.Keys + {c.rank}
    ensures |g[c.rank]| > 0 && g[c.rank][|g[c.rank]| - 1] == c
    ensures forall r :: r in groups && r != c.rank ==> r in g && g[r] == groups[r]
  {
    groups[c.rank := (if c.rank in groups then groups[c.rank] else []) + [c]]
  }

  /** Adding the next card of the hand keeps the dictionary exact. */
  lemma GroupsOfSnoc(hand: seq<Card>, i: nat, groups: map<Rank, seq<Card>>)
    requires i < |hand|
    requires GroupsOf(hand[..i], groups)
    ensures GroupsOf(hand[..i + 1], AddToGroup(groups, hand[i]))
  {
    forall r: Rank
      ensures Filter(hand[..i + 1], RankIs(r)) ==
                if r in AddToGroup(groups, hand[i]) then AddToGroup(groups, hand[i])[r] else []
    {
      FilterSnoc(hand, i, RankIs(r));
    }
  }

  /** One rank's group for `findDuplicates`: the hand's cards of that rank
      when there are two or more of them. */
  function DuplicateGroup(hand: seq<Card>, rank: Rank): seq<Card>
  {
    var g := Filter(hand, RankIs(rank));
    if |g| > 1 then g else []
  }

  /** The groups of the first k ranks (6 up to 5 + k), in rank order. */
  function DuplicatesBelow(hand: seq<Card>, k: nat): seq<Card>
    requires k <= 9
  {
    if k == 0 then [] else DuplicatesBelow(hand, k - 1) + DuplicateGroup(hand, 5 + k)
  }

  /** Every duplicate group, from rank 6 up to 14. */
  function Duplicates(hand: seq<Card>): (r: seq<Card>)
    ensures multiset(r) <= multiset(hand)
    ensures forall c :: c in r ==> SameRankCount(hand, c.rank) >= 2
  {
    var r := DuplicatesBelow(hand, 9);
    assert forall c :: multiset(r)[c] <= multiset(hand)[c] && (c in r ==> SameRankCount(hand, c.rank) >= 2) by {
      forall c ensures multiset(r)[c] <= multiset(hand)[c] && (c in r ==> SameRankCount(hand, c.rank) >= 2) {
        DuplicatesBelowAt(hand, c);
      }
    }
    r
  }

  /** A card's copies among all the groups: no more than the hand holds,
      and none unless its rank is repeated. */
  lemma DuplicatesBelowAt(hand: seq<Card>, c: Card)
    ensures multiset(DuplicatesBelow(hand, 9))[c] <= multiset(hand)[c]
    ensures c in DuplicatesBelow(hand, 9) ==> SameRankCount(hand, c.rank) >= 2
  {
    DuplicatesBelowCount(hand, 9, c);
  }

  /** One rank's group holds the hand's copies of a card of that rank when
      the rank occurs at least twice. */
  lemma DuplicateGroupCount(hand: seq<Card>, rank: Rank, c: Card)
    ensures multiset(DuplicateGroup(hand, rank))[c] ==
              if c.rank == rank && |Filter(hand, RankIs(c.rank))| >= 2 then multiset(hand)[c] else 0
  {
    FilterMultiset(hand, RankIs(rank));
  }

  /** No rank yet: no cards. */
  lemma DuplicatesBelowZero(hand: seq<Card>, k: nat, c: Card)
    requires k == 0
    ensures multiset(DuplicatesBelow(hand, k))[c] ==
              if c.rank <= 5 + k && |Filter(hand, RankIs(c.rank))| >= 2 then multiset(hand)[c] else 0
  {
    assert DuplicatesBelow(hand, k) == [];
  }

  /** The first k ranks' groups are the first k - 1 ranks' groups and one more. */
  lemma DuplicatesBelowSplit(hand: seq<Card>, k: nat, c: Card)
    requires 0 < k <= 9
    ensures multiset(DuplicatesBelow(hand, k))[c] ==
              multiset(DuplicatesBelow(hand, k - 1))[c] + multiset(DuplicateGroup(hand, 5 + k))[c]
  {
    assert DuplicatesBelow(hand, k) == DuplicatesBelow(hand, k - 1) + DuplicateGroup(hand, 5 + k);
  }

  /** Adding rank 5 + k adds that rank's group. */
  lemma DuplicatesBelowStep(hand: seq<Card>, k: nat, c: Card)
    requires 0 < k <= 9
    requires multiset(DuplicatesBelow(hand, k - 1))[c] ==
               if c.rank <= 4 + k && |Filter(hand, RankIs(c.rank))| >= 2 then multiset(hand)[c] else 0
    ensures multiset(DuplicatesBelow(hand, k))[c] ==
              if c.rank <= 5 + k && |Filter(hand, RankIs(c.rank))| >= 2 then multiset(hand)[c] else 0
  {
    DuplicateGroupCount(hand, 5 + k, c);
    DuplicatesBelowSplit(hand, k, c);
  }

  /** The groups of the first k ranks hold exactly the hand's copies of the
      cards of those ranks that occur at least twice. */
  lemma {:induction false} DuplicatesBelowCount(hand: seq<Card>, k: nat, c: Card)
    requires k <= 9
    ensures multiset(DuplicatesBelow(hand, k))[c] ==
              if c.rank <= 5 + k && |Filter(hand, RankIs(c.rank))| >= 2 then multiset(hand)[c] else 0
  {
    if k == 0 {
      DuplicatesBelowZero(hand, k, c);
    } else {
      DuplicatesBelowCount(hand, k - 1, c);
      DuplicatesBelowStep(hand, k, c);
    }
  }

  /** `findDuplicates` keeps exactly the cards whose rank occurs at least
      twice in the hand, with their multiplicity. */
  lemma DuplicatesExactly(hand: seq<Card>, c: Card)
    ensures multiset(Duplicates(hand))[c] == if SameRankCount(hand, c.rank) >= 2 then multiset(hand)[c] else 0
    ensures c in Duplicates(hand) <==> c in hand && SameRankCount(hand, c.rank) >= 2
  {
    DuplicatesBelowCount(hand, 9, c);
  }

  /** Cards whose ranks lie below `bound` and never decrease. */
  ghost predicate AscendingBelow(d: seq<Card>, bound: int)
  {
    (forall i :: 0 <= i < |d| ==> d[i].rank < bound) &&
    (forall i, j :: 0 <= i < j < |d| ==> d[i].rank <= d[j].rank)
  }

  /** Appending cards of one rank at the bound keeps the order. */
  lemma AscendingAppend(prev: seq<Card>, g: seq<Card>, rank: int)
    requires AscendingBelow(prev, rank)
    requires forall c :: c in g ==> c.rank == rank
    ensures AscendingBelow(prev + g, rank + 1)
  {
    var d := prev + g;
    forall i | 0 <= i < |d|
      ensures d[i].rank < rank + 1
    {
      if i >= |prev| { assert d[i] == g[i - |prev|]; assert d[i] in g; }
    }
    forall i, j | 0 <= i < j < |d|
      ensures d[i].rank <= d[j].rank
    {
      if j >= |prev| {
        assert d[j] == g[j - |prev|];
        assert d[j] in g;
        if i >= |prev| { assert d[i] == g[i - |prev|]; assert d[i] in g; }
      }
    }
  }

  /** One more rank appends that rank's group. */
  lemma DuplicatesBelowUnfold(hand: seq<Card>, k: nat)
    requires 0 < k <= 9
    ensures DuplicatesBelow(hand, k) == DuplicatesBelow(hand, k - 1) + DuplicateGroup(hand, 5 + k)
  {
  }

  /** Given the hand's cards of rank 6 + k, one more rank appends them when
      there are two or more. */
  lemma DuplicatesBelowNext(hand: seq<Card>, k: nat, group: seq<Card>)
    requires k < 9
    requires Filter(hand, RankIs(6 + k)) == group
    ensures DuplicatesBelow(hand, k + 1) == DuplicatesBelow(hand, k) + (if |group| > 1 then group else [])
  {
    DuplicatesBelowUnfold(hand, k + 1);
  }

  /** A rank's group holds only cards of that rank. */
  lemma DuplicateGroupRank(hand: seq<Card>, rank: Rank)
    ensures forall c :: c in DuplicateGroup(hand, rank) ==> c.rank == rank
  {
  }

  /** The groups of the first k ranks are in ascending rank order and use
      only those ranks. */
  lemma {:induction false} DuplicatesBelowSorted(hand: seq<Card>, k: nat)
    requires k <= 9
    ensures AscendingBelow(DuplicatesBelow(hand, k), 6 + k)
  {
    if k == 0 {
      assert DuplicatesBelow(hand, k) == [];
    } else {
      DuplicatesBelowSorted(hand, k - 1);
      DuplicatesBelowUnfold(hand, k);
      DuplicateGroupRank(hand, 5 + k);
      AscendingAppend(DuplicatesBelow(hand, k - 1), DuplicateGroup(hand, 5 + k), 5 + k);
    }
  }

  /** `findDuplicates` groups the cards by rank: their ranks never decrease. */
  lemma DuplicatesGrouped(hand: seq<Card>)
    ensures forall i, j :: 0 <= i < j < |Duplicates(hand)| ==> Duplicates(hand)[i].rank <= Duplicates(hand)[j].rank
  {
    DuplicatesBelowSorted(hand, 9);
  }
}
