/** How evenly a decision spreads the blocks of a leaving node, in terms of the bytes its offers send to each target. */
module MigrationBalance {
  import opened Types
  import opened KvStore
  import opened MigrationChoice
  import opened Migration

  /** The bytes of the first n blocks whose offer ends at this location; an empty block counts as one byte. */
  function BytesSent(vs: seq<Valued>, offers: seq<Offer>, at: Location, n: nat): nat
    requires |vs| == |offers| && n <= |vs|
  {
    if n == 0 then 0
    else
      BytesSent(vs, offers, at, n - 1)
      + if offers[n - 1].dst != Some(at) then 0 else if vs[n - 1].block.byteSize > 1 then vs[n - 1].block.byteSize else 1
  }

  /** How full a target is taken to be: its load, and these bytes relative to its free memory. */
  function Fullness(t: Target, bytes: nat): real {
    t.load + bytes as real / (if t.memoryFree > 1 then t.memoryFree else 1) as real
  }

  function Gpu(t: Target): Location {
    t.nodeId + ":gpu"
  }

  lemma ScoreIsFullness(t: Target, given: Assigned)
    ensures Score(t, given) == Fullness(t, BytesOf(given, t.nodeId))
  {
  }

  lemma SameGpuSameNode(t: Target, u: Target)
    requires Gpu(t) == Gpu(u)
    ensures t.nodeId == u.nodeId
  {
    assert |t.nodeId| == |u.nodeId|;
    assert t.nodeId == Gpu(t)[..|t.nodeId|] && u.nodeId == Gpu(u)[..|u.nodeId|];
  }

  lemma GpusDiffer(targets: seq<Target>, i: nat, j: nat)
    requires DistinctTargets(targets) && i < |targets| && j < |targets| && i != j
    ensures Gpu(targets[i]) != Gpu(targets[j])
  {
    assert targets[i].nodeId != targets[j].nodeId;
    if Gpu(targets[i]) == Gpu(targets[j]) {
      SameGpuSameNode(targets[i], targets[j]);
    }
  }

  lemma OfferGoesToBest(vs: seq<Valued>, targets: seq<Target>, index: map<int, seq<Location>>, n: NodeId, links: Links, k: nat)
    requires targets != [] && k < |vs|
    ensures var given := AssignedAfter(targets, SizesOf(vs), k);
      Offers(vs, targets, index, n, links)[k].dst == Some(Gpu(targets[Best(targets, given, |targets|)]))
  {
    OfferAt(vs, targets, index, n, links, k);
  }

  lemma LedgerStep(targets: seq<Target>, sizes: seq<nat>, k: nat, i: nat)
    requires targets != [] && DistinctTargets(targets) && k < |sizes| && i < |targets|
    ensures var given := AssignedAfter(targets, sizes, k);
      BytesOf(AssignedAfter(targets, sizes, k + 1), targets[i].nodeId)
        == BytesOf(given, targets[i].nodeId) + if i == Best(targets, given, |targets|) then sizes[k] else 0
  {
    hide Best;
    var best := Best(targets, AssignedAfter(targets, sizes, k), |targets|);
    assert best != i ==> targets[best].nodeId != targets[i].nodeId;
  }

  /** The ledger a decision keeps counts exactly the bytes its offers send. */
  lemma {:induction false} LedgerCountsBytes(vs: seq<Valued>, targets: seq<Target>, index: map<int, seq<Location>>, n: NodeId,
                                             links: Links, k: nat, i: nat)
    requires DistinctTargets(targets) && k <= |vs| && i < |targets|
    ensures var offers := Offers(vs, targets, index, n, links);
      BytesOf(AssignedAfter(targets, SizesOf(vs), k), targets[i].nodeId) == BytesSent(vs, offers, Gpu(targets[i]), k)
  {
    hide Offers, Best, Gpu, BytesOf, Charged;
    if k > 0 {
      LedgerCountsBytes(vs, targets, index, n, links, k - 1, i);
      OfferGoesToBest(vs, targets, index, n, links, k - 1);
      LedgerStep(targets, SizesOf(vs), k - 1, i);
      var best := Best(targets, AssignedAfter(targets, SizesOf(vs), k - 1), |targets|);
      if best != i {
        GpusDiffer(targets, best, i);
      }
    } else {
      NothingGiven(targets, SizesOf(vs), i);
    }
  }

  lemma NothingGiven(targets: seq<Target>, sizes: seq<nat>, i: nat)
    requires i < |targets|
    ensures BytesOf(AssignedAfter(targets, sizes, 0), targets[i].nodeId) == 0
  {
  }

  /** What the first k blocks send to each target. */
  function SentToEach(vs: seq<Valued>, offers: seq<Offer>, targets: seq<Target>, k: nat): (r: seq<nat>)
    requires |vs| == |offers| && k <= |vs|
    ensures |r| == |targets|
  {
    seq(|targets|, j requires 0 <= j < |targets| => BytesSent(vs, offers, Gpu(targets[j]), k))
  }

  /** The target at position i is the first of the least full ones, by these bytes. */
  ghost predicate FirstLeastFull(targets: seq<Target>, bytes: seq<nat>, i: nat)
    requires i < |targets| == |bytes|
  {
    && (forall j :: 0 <= j < |targets| ==> Fullness(targets[i], bytes[i]) <= Fullness(targets[j], bytes[j]))
    && (forall j :: 0 <= j < i ==> Fullness(targets[i], bytes[i]) < Fullness(targets[j], bytes[j]))
  }

  /** Each block goes to the first of the targets that are least full once the blocks before it have been counted in. */
  lemma EachToLeastFull(vs: seq<Valued>, targets: seq<Target>, index: map<int, seq<Location>>, n: NodeId, links: Links, k: nat)
    returns (i: nat)
    requires targets != [] && DistinctTargets(targets) && k < |vs|
    ensures i < |targets|
    ensures var offers := Offers(vs, targets, index, n, links);
      && offers[k].dst == Some(Gpu(targets[i]))
      && FirstLeastFull(targets, SentToEach(vs, offers, targets, k), i)
  {
    hide Offers, Score, BytesSent, Gpu, Fullness;
    var given := AssignedAfter(targets, SizesOf(vs), k);
    i := Best(targets, given, |targets|);
    OfferGoesToBest(vs, targets, index, n, links, k);
    forall j | 0 <= j < |targets|
      ensures Score(targets[j], given)
           == Fullness(targets[j], BytesSent(vs, Offers(vs, targets, index, n, links), Gpu(targets[j]), k))
    {
      LedgerCountsBytes(vs, targets, index, n, links, k, j);
      ScoreIsFullness(targets[j], given);
    }
  }

  ghost predicate NoLarger(vs: seq<Valued>, largest: nat) {
    largest >= 1 && forall k :: 0 <= k < |vs| ==> vs[k].block.byteSize <= largest
  }

  lemma {:induction false} SentMeansGiven(vs: seq<Valued>, targets: seq<Target>, index: map<int, seq<Location>>, n: NodeId,
                                          links: Links, k: nat, i: nat)
    requires DistinctTargets(targets) && k <= |vs| && i < |targets|
    requires BytesSent(vs, Offers(vs, targets, index, n, links), Gpu(targets[i]), k) > 0
    ensures targets[i].nodeId in AssignedAfter(targets, SizesOf(vs), k)
  {
    LedgerCountsBytes(vs, targets, index, n, links, k, i);
  }

  /** Balance: a target that is sent anything ends at most one largest block fuller than any other. */
  lemma SpreadIsBalanced(vs: seq<Valued>, targets: seq<Target>, index: map<int, seq<Location>>, n: NodeId, links: Links,
                         largest: nat, i: nat, j: nat)
    requires DistinctTargets(targets) && NoLarger(vs, largest) && i < |targets| && j < |targets|
    requires BytesSent(vs, Offers(vs, targets, index, n, links), Gpu(targets[i]), |vs|) > 0
    ensures var offers := Offers(vs, targets, index, n, links);
      Fullness(targets[i], BytesSent(vs, offers, Gpu(targets[i]), |vs|))
        <= Fullness(targets[j], BytesSent(vs, offers, Gpu(targets[j]), |vs|))
           + largest as real / (if targets[i].memoryFree > 1 then targets[i].memoryFree else 1) as real
  {
    hide Offers, BytesSent, Gpu, AssignedAfter;
    var given := AssignedAfter(targets, SizesOf(vs), |vs|);
    TargetsBalanced(targets, SizesOf(vs), |vs|, largest);
    SentMeansGiven(vs, targets, index, n, links, |vs|, i);
    LedgerCountsBytes(vs, targets, index, n, links, |vs|, i);
    LedgerCountsBytes(vs, targets, index, n, links, |vs|, j);
    ScoreIsFullness(targets[i], given);
    ScoreIsFullness(targets[j], given);
  }

  /** Between targets of equal load and memory the bytes sent differ by at most one largest block. */
  lemma EqualTargetsGetEqualBytes(vs: seq<Valued>, targets: seq<Target>, index: map<int, seq<Location>>, n: NodeId, links: Links,
                                  largest: nat, i: nat, j: nat)
    requires DistinctTargets(targets) && NoLarger(vs, largest) && i < |targets| && j < |targets|
    requires targets[i].load == targets[j].load && targets[i].memoryFree == targets[j].memoryFree
    ensures var offers := Offers(vs, targets, index, n, links);
      BytesSent(vs, offers, Gpu(targets[i]), |vs|) <= BytesSent(vs, offers, Gpu(targets[j]), |vs|) + largest
  {
    hide Offers, BytesSent, Gpu, AssignedAfter;
    EqualTargetsDifferByOneBlock(targets, SizesOf(vs), largest, i, j);
    LedgerCountsBytes(vs, targets, index, n, links, |vs|, i);
    LedgerCountsBytes(vs, targets, index, n, links, |vs|, j);
  }
}
