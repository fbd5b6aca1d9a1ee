/** How the two planners cut the discovered list into batches
    (internal/state/staging_bounded.go and PlanBatches of staging_store.go). */
module Planner {
  import opened Model

  /** One discovered file, in the order the planning query lists them. */
  datatype Item = Item(id: FileId, parent: Path, size: nat)

  /** Where the run of files sharing the first one's parent ends. */
  function ParentEnd(list: seq<Item>, start: nat, end: nat): (stop: nat)
    requires start < end <= |list|
    ensures end <= stop <= |list|
    ensures stop < |list| ==> list[stop].parent != list[start].parent
    ensures forall i :: end <= i < stop ==> list[i].parent == list[start].parent
    decreases |list| - end
  {
    if end < |list| && list[end].parent == list[start].parent then ParentEnd(list, start, end + 1) else end
  }

  function Bytes(list: seq<Item>, from: nat, until: nat): nat
    requires from <= until <= |list|
    decreases until
  {
    if from == until then 0 else Bytes(list, from, until - 1) + list[until - 1].size
  }

  /** The byte-bounded fill of one batch that begins at start and already reaches end. */
  function FillEnd(list: seq<Item>, start: nat, end: nat, stop: nat, maxFiles: nat, maxBytes: nat): (e: nat)
    requires start <= end <= stop <= |list|
    ensures end <= e <= stop
    decreases |list| - end
  {
    if end == stop || end - start >= maxFiles then end
    else if end > start && Bytes(list, start, end + 1) > maxBytes then end
    else if Bytes(list, start, end + 1) >= maxBytes then end + 1
    else FillEnd(list, start, end + 1, stop, maxFiles, maxBytes)
  }

  function BoundedEnd(list: seq<Item>, start: nat, maxFiles: nat, maxBytes: nat): nat
    requires start < |list|
  {
    FillEnd(list, start, start, ParentEnd(list, start, start + 1), maxFiles, maxBytes)
  }

  function CountEnd(list: seq<Item>, start: nat, maxFiles: nat): nat
    requires start < |list|
  {
    var stop := ParentEnd(list, start, start + 1);
    if start + maxFiles > stop then stop else start + maxFiles
  }

  /** End positions of the batches PlanBatchesBounded makes from position start on. */
  function BoundedCuts(list: seq<Item>, start: nat, maxFiles: nat, maxBytes: nat): seq<nat>
    requires start <= |list| && 0 < maxFiles
    decreases |list| - start
  {
    if start == |list| then []
    else
      var e := BoundedEnd(list, start, maxFiles, maxBytes);
      BoundedEndAdvances(list, start, maxFiles, maxBytes);
      [e] + BoundedCuts(list, e, maxFiles, maxBytes)
  }

  /** End positions of the batches PlanBatches makes. */
  function CountCuts(list: seq<Item>, start: nat, maxFiles: nat): seq<nat>
    requires start <= |list| && 0 < maxFiles
    decreases |list| - start
  {
    if start == |list| then []
    else
      var e := CountEnd(list, start, maxFiles);
      [e] + CountCuts(list, e, maxFiles)
  }

  // ----- what a batch may be -------------------------------------------------

  /** A legal batch list[from..to]: one parent, within both limits unless a single file. */
  ghost predicate LegalBatch(list: seq<Item>, from: nat, until: nat, maxFiles: nat, maxBytes: nat) {
    && from < until <= |list|
    && until - from <= maxFiles
    && (forall i :: from <= i < until ==> list[i].parent == list[from].parent)
    && (Bytes(list, from, until) <= maxBytes || until == from + 1)
  }

  /** The cuts divide list[start..] into consecutive legal batches that leave nothing out. */
  ghost predicate LegalCuts(list: seq<Item>, start: nat, cuts: seq<nat>, maxFiles: nat, maxBytes: nat)
    decreases |cuts|
  {
    if cuts == [] then start == |list|
    else LegalBatch(list, start, cuts[0], maxFiles, maxBytes) && LegalCuts(list, cuts[0], cuts[1..], maxFiles, maxBytes)
  }

  lemma {:induction false} FillEndLegal(list: seq<Item>, start: nat, end: nat, stop: nat, maxFiles: nat, maxBytes: nat)
    requires start <= end <= stop <= |list| && start < stop && 0 < maxFiles && end - start <= maxFiles
    requires forall i :: start <= i < stop ==> list[i].parent == list[start].parent
    requires end == start || LegalBatch(list, start, end, maxFiles, maxBytes)
    ensures LegalBatch(list, start, FillEnd(list, start, end, stop, maxFiles, maxBytes), maxFiles, maxBytes)
    decreases |list| - end
  {
    if end == stop || end - start >= maxFiles {
    } else if end > start && Bytes(list, start, end + 1) > maxBytes {
    } else if Bytes(list, start, end + 1) >= maxBytes {
    } else {
      FillEndLegal(list, start, end + 1, stop, maxFiles, maxBytes);
    }
  }

  lemma BoundedEndAdvances(list: seq<Item>, start: nat, maxFiles: nat, maxBytes: nat)
    requires start < |list| && 0 < maxFiles
    ensures LegalBatch(list, start, BoundedEnd(list, start, maxFiles, maxBytes), maxFiles, maxBytes)
  {
    FillEndLegal(list, start, start, ParentEnd(list, start, start + 1), maxFiles, maxBytes);
  }

  /** The planner's batches are legal, consecutive, non-empty and cover the whole list. */
  lemma {:induction false} BoundedCutsLegal(list: seq<Item>, start: nat, maxFiles: nat, maxBytes: nat)
    requires start <= |list| && 0 < maxFiles
    ensures LegalCuts(list, start, BoundedCuts(list, start, maxFiles, maxBytes), maxFiles, maxBytes)
    decreases |list| - start
  {
    if start < |list| {
      BoundedEndAdvances(list, start, maxFiles, maxBytes);
      BoundedCutsLegal(list, BoundedEnd(list, start, maxFiles, maxBytes), maxFiles, maxBytes);
    }
  }

  // ----- minimality ----------------------------------------------------------

  lemma {:induction false} BytesSplit(list: seq<Item>, from: nat, mid: nat, until: nat)
    requires from <= mid <= until <= |list|
    ensures Bytes(list, from, until) == Bytes(list, from, mid) + Bytes(list, mid, until)
    decreases until
  {
    if mid < until { BytesSplit(list, from, mid, until - 1); }
  }

  ghost predicate PositiveSizes(list: seq<Item>) {
    forall i :: 0 <= i < |list| ==> list[i].size > 0
  }

  /** The batch list[start..e] is exactly full, has room for one more file, and the next file of its parent is empty. */
  predicate ClosedEarly(list: seq<Item>, start: nat, e: nat, maxFiles: nat, maxBytes: nat) {
    && start < e < |list| && e - start < maxFiles && Bytes(list, start, e) == maxBytes
    && list[e].parent == list[start].parent && list[e].size == 0
  }

  /** How many of the planner's batches from position start on are closed early. */
  function EarlyCloses(list: seq<Item>, start: nat, maxFiles: nat, maxBytes: nat): nat
    requires start <= |list| && 0 < maxFiles
    decreases |list| - start
  {
    if start == |list| then 0
    else
      var e := BoundedEnd(list, start, maxFiles, maxBytes);
      BoundedEndAdvances(list, start, maxFiles, maxBytes);
      (if ClosedEarly(list, start, e, maxFiles, maxBytes) then 1 else 0) + EarlyCloses(list, e, maxFiles, maxBytes)
  }

  /** Filling stops short of a legal batch from the same start only by closing early. */
  lemma {:induction false} FillEndMaximal(list: seq<Item>, start: nat, end: nat, stop: nat, until: nat, maxFiles: nat, maxBytes: nat)
    requires start <= end <= stop <= |list| && start < stop && end <= until <= stop
    requires forall i :: start <= i < stop ==> list[i].parent == list[start].parent
    requires LegalBatch(list, start, until, maxFiles, maxBytes)
    ensures var e := FillEnd(list, start, end, stop, maxFiles, maxBytes); until <= e || ClosedEarly(list, start, e, maxFiles, maxBytes)
    decreases |list| - end
  {
    if end < until {
      BytesSplit(list, start, end + 1, until);
      if end + 1 < until { BytesSplit(list, end + 1, end + 2, until); }
      if end - start < maxFiles && Bytes(list, start, end + 1) < maxBytes {
        FillEndMaximal(list, start, end + 1, stop, until, maxFiles, maxBytes);
      }
    }
  }

  lemma LegalBatchWithinParent(list: seq<Item>, from: nat, until: nat, maxFiles: nat, maxBytes: nat)
    requires LegalBatch(list, from, until, maxFiles, maxBytes)
    ensures until <= ParentEnd(list, from, from + 1)
  {
    var stop := ParentEnd(list, from, from + 1);
    assert forall i :: from <= i < until ==> list[i].parent == list[from].parent;
  }

  /** A legal batch, entered later, is still legal up to the same end. */
  lemma LegalSuffix(list: seq<Item>, from: nat, later: nat, until: nat, maxFiles: nat, maxBytes: nat)
    requires LegalBatch(list, from, until, maxFiles, maxBytes) && from <= later < until
    ensures LegalBatch(list, later, until, maxFiles, maxBytes)
  {
    BytesSplit(list, from, later, until);
  }

  /** Greedy stays ahead of any legal partition, but for the batches it closes early. */
  lemma {:induction false} GreedyStaysAhead(list: seq<Item>, start: nat, ahead: nat, cuts: seq<nat>, maxFiles: nat, maxBytes: nat)
    requires start <= ahead <= |list| && 0 < maxFiles && LegalCuts(list, start, cuts, maxFiles, maxBytes)
    ensures |BoundedCuts(list, ahead, maxFiles, maxBytes)| <= |cuts| + EarlyCloses(list, ahead, maxFiles, maxBytes)
    decreases |list| - ahead + |cuts|
  {
    if cuts != [] && ahead < |list| {
      var until := cuts[0];
      if until <= ahead {
        GreedyStaysAhead(list, until, ahead, cuts[1..], maxFiles, maxBytes);
      } else {
        LegalSuffix(list, start, ahead, until, maxFiles, maxBytes);
        LegalBatchWithinParent(list, ahead, until, maxFiles, maxBytes);
        FillEndMaximal(list, ahead, ahead, ParentEnd(list, ahead, ahead + 1), until, maxFiles, maxBytes);
        BoundedEndAdvances(list, ahead, maxFiles, maxBytes);
        var e := BoundedEnd(list, ahead, maxFiles, maxBytes);
        if until <= e {
          GreedyStaysAhead(list, until, e, cuts[1..], maxFiles, maxBytes);
        } else {
          GreedyStaysAhead(list, start, e, cuts, maxFiles, maxBytes);
        }
      }
    }
  }

  /** For every list: the planner makes at most as many batches too many as it closes early. */
  lemma BoundedCutsNearMinimal(list: seq<Item>, cuts: seq<nat>, maxFiles: nat, maxBytes: nat)
    requires 0 < maxFiles && LegalCuts(list, 0, cuts, maxFiles, maxBytes)
    ensures |BoundedCuts(list, 0, maxFiles, maxBytes)| <= |cuts| + EarlyCloses(list, 0, maxFiles, maxBytes)
  {
    GreedyStaysAhead(list, 0, 0, cuts, maxFiles, maxBytes);
  }

  /** If it closes none early, no legal consecutive partition has fewer batches. */
  lemma BoundedCutsMinimal(list: seq<Item>, cuts: seq<nat>, maxFiles: nat, maxBytes: nat)
    requires 0 < maxFiles && EarlyCloses(list, 0, maxFiles, maxBytes) == 0
    requires LegalCuts(list, 0, cuts, maxFiles, maxBytes)
    ensures |BoundedCuts(list, 0, maxFiles, maxBytes)| <= |cuts|
  {
    GreedyStaysAhead(list, 0, 0, cuts, maxFiles, maxBytes);
  }

  /** Without empty files in particular. */
  lemma {:induction false} PositiveNeverEarly(list: seq<Item>, start: nat, maxFiles: nat, maxBytes: nat)
    requires start <= |list| && 0 < maxFiles && PositiveSizes(list)
    ensures EarlyCloses(list, start, maxFiles, maxBytes) == 0
    decreases |list| - start
  {
    if start < |list| {
      BoundedEndAdvances(list, start, maxFiles, maxBytes);
      PositiveNeverEarly(list, BoundedEnd(list, start, maxFiles, maxBytes), maxFiles, maxBytes);
    }
  }

  // ----- exactly when the plan is minimal ---------------------------------------

  /** Filling on as long as the batch stays legal. */
  function WholeEnd(list: seq<Item>, start: nat, end: nat, stop: nat, maxFiles: nat, maxBytes: nat): (e: nat)
    requires start <= end <= stop <= |list|
    ensures end <= e <= stop
    decreases |list| - end
  {
    if end == stop || end - start >= maxFiles || (end > start && Bytes(list, start, end + 1) > maxBytes) then end
    else WholeEnd(list, start, end + 1, stop, maxFiles, maxBytes)
  }

  lemma {:induction false} WholeEndLegal(list: seq<Item>, start: nat, end: nat, stop: nat, maxFiles: nat, maxBytes: nat)
    requires start <= end <= stop <= |list| && start < stop && 0 < maxFiles
    requires forall i :: start <= i < stop ==> list[i].parent == list[start].parent
    requires end == start || LegalBatch(list, start, end, maxFiles, maxBytes)
    ensures LegalBatch(list, start, WholeEnd(list, start, end, stop, maxFiles, maxBytes), maxFiles, maxBytes)
    decreases |list| - end
  {
    if end == stop || end - start >= maxFiles || (end > start && Bytes(list, start, end + 1) > maxBytes) {
    } else {
      WholeEndLegal(list, start, end + 1, stop, maxFiles, maxBytes);
    }
  }

  lemma {:induction false} WholeEndMaximal(list: seq<Item>, start: nat, end: nat, stop: nat, until: nat, maxFiles: nat, maxBytes: nat)
    requires start <= end <= stop <= |list| && start < stop && end <= until <= stop
    requires LegalBatch(list, start, until, maxFiles, maxBytes)
    ensures until <= WholeEnd(list, start, end, stop, maxFiles, maxBytes)
    decreases |list| - end
  {
    if end < until {
      BytesSplit(list, start, end + 1, until);
      WholeEndMaximal(list, start, end + 1, stop, until, maxFiles, maxBytes);
    }
  }

  function EagerEnd(list: seq<Item>, start: nat, maxFiles: nat, maxBytes: nat): (e: nat)
    requires start < |list| && 0 < maxFiles
    ensures LegalBatch(list, start, e, maxFiles, maxBytes)
  {
    WholeEndLegal(list, start, start, ParentEnd(list, start, start + 1), maxFiles, maxBytes);
    WholeEnd(list, start, start, ParentEnd(list, start, start + 1), maxFiles, maxBytes)
  }

  /** The cuts of a planner that never closes early. */
  function EagerCuts(list: seq<Item>, start: nat, maxFiles: nat, maxBytes: nat): (cuts: seq<nat>)
    requires start <= |list| && 0 < maxFiles
    ensures LegalCuts(list, start, cuts, maxFiles, maxBytes)
    decreases |list| - start
  {
    if start == |list| then []
    else
      var e := EagerEnd(list, start, maxFiles, maxBytes);
      [e] + EagerCuts(list, e, maxFiles, maxBytes)
  }

  /** Such a planner is minimal on every list. */
  lemma {:induction false} EagerStaysAhead(list: seq<Item>, start: nat, ahead: nat, cuts: seq<nat>, maxFiles: nat, maxBytes: nat)
    requires start <= ahead <= |list| && 0 < maxFiles && LegalCuts(list, start, cuts, maxFiles, maxBytes)
    ensures |EagerCuts(list, ahead, maxFiles, maxBytes)| <= |cuts|
    decreases |cuts|
  {
    if cuts != [] && ahead < |list| {
      var until := cuts[0];
      if until <= ahead {
        EagerStaysAhead(list, until, ahead, cuts[1..], maxFiles, maxBytes);
      } else {
        LegalSuffix(list, start, ahead, until, maxFiles, maxBytes);
        LegalBatchWithinParent(list, ahead, until, maxFiles, maxBytes);
        WholeEndMaximal(list, ahead, ahead, ParentEnd(list, ahead, ahead + 1), until, maxFiles, maxBytes);
        EagerStaysAhead(list, until, EagerEnd(list, ahead, maxFiles, maxBytes), cuts[1..], maxFiles, maxBytes);
      }
    }
  }

  /** No legal partition has fewer batches than the plan. */
  ghost predicate Minimal(list: seq<Item>, maxFiles: nat, maxBytes: nat)
    requires 0 < maxFiles
  {
    forall cuts :: LegalCuts(list, 0, cuts, maxFiles, maxBytes) ==> |BoundedCuts(list, 0, maxFiles, maxBytes)| <= |cuts|
  }

  /** Exactly, for every list: the plan is minimal if and only if filling on past exactly full batches saves none. */
  lemma MinimalIff(list: seq<Item>, maxFiles: nat, maxBytes: nat)
    requires 0 < maxFiles
    ensures Minimal(list, maxFiles, maxBytes) <==> |BoundedCuts(list, 0, maxFiles, maxBytes)| == |EagerCuts(list, 0, maxFiles, maxBytes)|
  {
    BoundedCutsLegal(list, 0, maxFiles, maxBytes);
    EagerStaysAhead(list, 0, 0, BoundedCuts(list, 0, maxFiles, maxBytes), maxFiles, maxBytes);
    forall cuts | LegalCuts(list, 0, cuts, maxFiles, maxBytes) ensures |EagerCuts(list, 0, maxFiles, maxBytes)| <= |cuts| {
      EagerStaysAhead(list, 0, 0, cuts, maxFiles, maxBytes);
    }
  }

  // ----- and where no directory holds more files than a batch may --------------------

  /** The file limit never binds: every directory's run has at most as many files as a batch may have. */
  predicate Roomy(list: seq<Item>, maxFiles: nat) {
    forall s :: 0 <= s < |list| ==> RunLength(list, s) <= maxFiles
  }

  function RunLength(list: seq<Item>, start: nat): nat
    requires start < |list|
  {
    ParentEnd(list, start, start + 1) - start
  }

  /** Closed early, with nothing but empty files behind it up to the end of its directory, or up to a file that is
      larger than a batch may be. */
  predicate ClosedInVain(list: seq<Item>, start: nat, e: nat, maxFiles: nat, maxBytes: nat)
    requires start < |list| && 0 < maxFiles
  {
    && ClosedEarly(list, start, e, maxFiles, maxBytes)
    && var g := EagerEnd(list, start, maxFiles, maxBytes); g == ParentEnd(list, start, start + 1) || (g < |list| && list[g].size > maxBytes)
  }

  function VainCloses(list: seq<Item>, start: nat, maxFiles: nat, maxBytes: nat): nat
    requires start <= |list| && 0 < maxFiles
    decreases |list| - start
  {
    if start == |list| then 0
    else
      var e := BoundedEnd(list, start, maxFiles, maxBytes);
      BoundedEndAdvances(list, start, maxFiles, maxBytes);
      (if ClosedInVain(list, start, e, maxFiles, maxBytes) then 1 else 0) + VainCloses(list, e, maxFiles, maxBytes)
  }

  lemma SameParentEnd(list: seq<Item>, start: nat, mid: nat)
    requires start < |list| && start <= mid < ParentEnd(list, start, start + 1)
    ensures ParentEnd(list, mid, mid + 1) == ParentEnd(list, start, start + 1)
  {
    assert list[mid].parent == list[start].parent;
  }

  /** Both ways of filling end at the same place, unless the batch is closed early. */
  lemma {:induction false} FillOrWhole(list: seq<Item>, start: nat, end: nat, stop: nat, maxFiles: nat, maxBytes: nat)
    requires start <= end <= stop <= |list| && start < stop && forall i :: start <= i < stop ==> list[i].parent == list[start].parent
    ensures var e, g := FillEnd(list, start, end, stop, maxFiles, maxBytes), WholeEnd(list, start, end, stop, maxFiles, maxBytes);
            if ClosedEarly(list, start, e, maxFiles, maxBytes) && e < stop then g == WholeEnd(list, start, e, stop, maxFiles, maxBytes) else g == e
    decreases |list| - end
  {
    if end < stop && end - start < maxFiles && !(end > start && Bytes(list, start, end + 1) > maxBytes) {
      if Bytes(list, start, end + 1) < maxBytes {
        FillOrWhole(list, start, end + 1, stop, maxFiles, maxBytes);
      } else if end + 1 < stop {
        assert Bytes(list, start, end + 2) == Bytes(list, start, end + 1) + list[end + 1].size;
      }
    }
  }

  /** Filling on past an exactly full batch takes the empty files behind it, up to one that is not empty. */
  lemma {:induction false} WholeTakesEmpty(list: seq<Item>, start: nat, end: nat, stop: nat, maxFiles: nat, maxBytes: nat)
    requires start < end <= stop <= |list| && stop - start <= maxFiles && Bytes(list, start, end) == maxBytes
    ensures var g := WholeEnd(list, start, end, stop, maxFiles, maxBytes); Bytes(list, end, g) == 0 && (g < stop ==> list[g].size > 0)
    decreases |list| - end
  {
    var g := WholeEnd(list, start, end, stop, maxFiles, maxBytes);
    if end < stop {
      if list[end].size == 0 { WholeTakesEmpty(list, start, end + 1, stop, maxFiles, maxBytes); }
      if end < g { BytesSplit(list, end, end + 1, g); }
    }
  }

  /** A batch that begins with empty files is filled on at once up to the first one that is not. */
  lemma {:induction false} EmptyFirst(list: seq<Item>, start: nat, end: nat, g: nat, stop: nat, maxFiles: nat, maxBytes: nat)
    requires start <= end <= g <= stop <= |list| && stop - start <= maxFiles && 0 < maxBytes && Bytes(list, start, g) == 0
    ensures FillEnd(list, start, end, stop, maxFiles, maxBytes) == FillEnd(list, start, g, stop, maxFiles, maxBytes)
    ensures WholeEnd(list, start, end, stop, maxFiles, maxBytes) == WholeEnd(list, start, g, stop, maxFiles, maxBytes)
    decreases g - end
  {
    if end < g {
      BytesSplit(list, start, end + 1, g);
      EmptyFirst(list, start, end + 1, g, stop, maxFiles, maxBytes);
    }
  }

  /** From there on it goes like one that begins with that file. */
  lemma {:induction false} EmptyUnseen(list: seq<Item>, start: nat, g: nat, end: nat, stop: nat, maxFiles: nat, maxBytes: nat)
    requires start < g <= end <= stop <= |list| && stop - start <= maxFiles && Bytes(list, start, g) == 0
    requires end == g ==> g < stop && list[g].size <= maxBytes
    ensures FillEnd(list, start, end, stop, maxFiles, maxBytes) == FillEnd(list, g, end, stop, maxFiles, maxBytes)
    ensures WholeEnd(list, start, end, stop, maxFiles, maxBytes) == WholeEnd(list, g, end, stop, maxFiles, maxBytes)
    decreases |list| - end
  {
    if end < stop {
      BytesSplit(list, start, g, end + 1);
      EmptyUnseen(list, start, g, end + 1, stop, maxFiles, maxBytes);
    }
  }

  /** Closed early with a file of admissible size still to come: the next batch ends where it would have ended anyway. */
  lemma NextCatchesUp(list: seq<Item>, e: nat, g: nat, stop: nat, maxFiles: nat, maxBytes: nat)
    requires e < g < stop <= |list| && 0 < maxFiles && 0 < maxBytes && Bytes(list, e, g) == 0 && 0 < list[g].size <= maxBytes
    requires stop == ParentEnd(list, e, e + 1) == ParentEnd(list, g, g + 1) && stop - e <= maxFiles
    ensures BoundedEnd(list, e, maxFiles, maxBytes) == BoundedEnd(list, g, maxFiles, maxBytes)
    ensures EagerEnd(list, e, maxFiles, maxBytes) == EagerEnd(list, g, maxFiles, maxBytes)
    ensures var x := BoundedEnd(list, g, maxFiles, maxBytes); ClosedInVain(list, e, x, maxFiles, maxBytes) <==> ClosedInVain(list, g, x, maxFiles, maxBytes)
  {
    EmptyFirst(list, e, e, g, stop, maxFiles, maxBytes);
    EmptyUnseen(list, e, g, g, stop, maxFiles, maxBytes);
    var x := BoundedEnd(list, g, maxFiles, maxBytes);
    BoundedEndAdvances(list, g, maxFiles, maxBytes);
    BytesSplit(list, e, g, x);
    assert list[g].parent == list[e].parent;
  }

  /** What stands behind a batch closed early. */
  lemma BehindEarly(list: seq<Item>, start: nat, maxFiles: nat, maxBytes: nat)
    requires start < |list| && 0 < maxFiles && Roomy(list, maxFiles)
    ensures var e, g, stop := BoundedEnd(list, start, maxFiles, maxBytes), EagerEnd(list, start, maxFiles, maxBytes), ParentEnd(list, start, start + 1);
            if ClosedEarly(list, start, e, maxFiles, maxBytes)
            then start < e < g <= stop && Bytes(list, e, g) == 0 && (g < stop ==> list[g].size > 0)
            else g == e
  {
    var e, stop := BoundedEnd(list, start, maxFiles, maxBytes), ParentEnd(list, start, start + 1);
    FillOrWhole(list, start, start, stop, maxFiles, maxBytes);
    assert RunLength(list, start) <= maxFiles;
    if ClosedEarly(list, start, e, maxFiles, maxBytes) {
      assert e < stop;
      WholeTakesEmpty(list, start, e, stop, maxFiles, maxBytes);
    }
  }

  /** What the next batch makes up for, and what it does not. */
  lemma AfterEarly(list: seq<Item>, start: nat, maxFiles: nat, maxBytes: nat)
    requires start < |list| && 0 < maxFiles && 0 < maxBytes && Roomy(list, maxFiles)
    requires ClosedEarly(list, start, BoundedEnd(list, start, maxFiles, maxBytes), maxFiles, maxBytes)
    ensures var e, g := BoundedEnd(list, start, maxFiles, maxBytes), EagerEnd(list, start, maxFiles, maxBytes);
            if ClosedInVain(list, start, e, maxFiles, maxBytes)
            then BoundedEnd(list, e, maxFiles, maxBytes) == g && !ClosedInVain(list, e, g, maxFiles, maxBytes)
            else var x := BoundedEnd(list, e, maxFiles, maxBytes);
                 g < |list| && BoundedEnd(list, g, maxFiles, maxBytes) == x && (ClosedInVain(list, e, x, maxFiles, maxBytes) <==> ClosedInVain(list, g, x, maxFiles, maxBytes))
  {
    var e, g, stop := BoundedEnd(list, start, maxFiles, maxBytes), EagerEnd(list, start, maxFiles, maxBytes), ParentEnd(list, start, start + 1);
    BehindEarly(list, start, maxFiles, maxBytes);
    assert RunLength(list, start) <= maxFiles;
    SameParentEnd(list, start, e);
    if g < stop { SameParentEnd(list, start, g); }
    if g < stop && list[g].size <= maxBytes {
      NextCatchesUp(list, e, g, stop, maxFiles, maxBytes);
    } else {
      EmptyFirst(list, e, e, g, stop, maxFiles, maxBytes);
      if g < stop { BytesSplit(list, e, g, g + 1); }
    }
  }

  /** The plan has exactly as many batches too many as were closed in vain. */
  lemma {:induction false} VainClosesCost(list: seq<Item>, start: nat, maxFiles: nat, maxBytes: nat)
    requires start <= |list| && 0 < maxFiles && 0 < maxBytes && Roomy(list, maxFiles)
    ensures |BoundedCuts(list, start, maxFiles, maxBytes)| == |EagerCuts(list, start, maxFiles, maxBytes)| + VainCloses(list, start, maxFiles, maxBytes)
    decreases |list| - start
  {
    hide Roomy, BoundedEnd, EagerEnd, LegalCuts, ClosedEarly;
    if start < |list| {
      var e, g := BoundedEnd(list, start, maxFiles, maxBytes), EagerEnd(list, start, maxFiles, maxBytes);
      BoundedEndAdvances(list, start, maxFiles, maxBytes);
      BehindEarly(list, start, maxFiles, maxBytes);
      VainClosesCost(list, g, maxFiles, maxBytes);
      if ClosedEarly(list, start, e, maxFiles, maxBytes) {
        AfterEarly(list, start, maxFiles, maxBytes);
        BoundedEndAdvances(list, e, maxFiles, maxBytes);
      }
    }
  }

  /** Where no directory holds more files than a batch may: the plan is minimal if and only if no batch is closed in
      vain. An exactly full batch before an empty file costs nothing if a file of admissible size is still to come. */
  lemma MinimalInRoomy(list: seq<Item>, maxFiles: nat, maxBytes: nat)
    requires 0 < maxFiles && 0 < maxBytes && Roomy(list, maxFiles)
    ensures Minimal(list, maxFiles, maxBytes) <==> VainCloses(list, 0, maxFiles, maxBytes) == 0
  {
    MinimalIff(list, maxFiles, maxBytes);
    VainClosesCost(list, 0, maxFiles, maxBytes);
  }

  /** Ten bytes, an empty file and five bytes, ten to a batch: one batch is closed early, none in vain. */
  lemma EarlyAtNoCost()
    ensures var list := [Item(1, [], 10), Item(2, [], 0), Item(3, [], 5)];
            EarlyCloses(list, 0, 3, 10) == 1 && VainCloses(list, 0, 3, 10) == 0 && Roomy(list, 3)
  {
    var list := [Item(1, [], 10), Item(2, [], 0), Item(3, [], 5)];
    assert ParentEnd(list, 0, 3) == 3 && ParentEnd(list, 0, 2) == 3 && ParentEnd(list, 0, 1) == 3;
    assert ParentEnd(list, 1, 3) == 3 && ParentEnd(list, 1, 2) == 3 && ParentEnd(list, 2, 3) == 3;
    assert Bytes(list, 0, 1) == 10 && Bytes(list, 0, 2) == 10 && Bytes(list, 0, 3) == 15;
    assert Bytes(list, 1, 2) == 0 && Bytes(list, 1, 3) == 5;
    assert BoundedEnd(list, 0, 3, 10) == 1;
    assert FillEnd(list, 1, 3, 3, 3, 10) == 3 && FillEnd(list, 1, 2, 3, 3, 10) == 3 && BoundedEnd(list, 1, 3, 10) == 3;
    assert WholeEnd(list, 0, 2, 3, 3, 10) == 2 && WholeEnd(list, 0, 1, 3, 3, 10) == 2 && EagerEnd(list, 0, 3, 10) == 2;
    assert EarlyCloses(list, 3, 3, 10) == 0 && EarlyCloses(list, 1, 3, 10) == 0;
    assert VainCloses(list, 3, 3, 10) == 0 && VainCloses(list, 1, 3, 10) == 0;
  }

  /** An exactly full batch closed before a zero-byte file: one batch too many, as many as were closed early. */
  lemma ZeroSizeNotMinimal()
    ensures var list := [Item(1, [], 5), Item(2, [], 0)];
            LegalCuts(list, 0, [2], 2, 5) && |BoundedCuts(list, 0, 2, 5)| == 2 && EarlyCloses(list, 0, 2, 5) == 1
  {
    var list := [Item(1, [], 5), Item(2, [], 0)];
    assert Bytes(list, 0, 1) == 5;
    assert Bytes(list, 0, 2) == 5;
    assert ParentEnd(list, 0, 1) == 2 by { assert ParentEnd(list, 0, 2) == 2; }
    assert [2][1..] == [];
    assert LegalCuts(list, 2, [], 2, 5);
    assert BoundedEnd(list, 0, 2, 5) == 1;
    assert ParentEnd(list, 1, 2) == 2;
    assert Bytes(list, 1, 2) == 0;
    assert BoundedEnd(list, 1, 2, 5) == 2 by { assert FillEnd(list, 1, 2, 2, 2, 5) == 2; }
    assert BoundedCuts(list, 2, 2, 5) == [];
    assert BoundedCuts(list, 1, 2, 5) == [2];
  }

  // ----- agreement of the two planners ---------------------------------------

  lemma {:induction false} FillEndUnbounded(list: seq<Item>, start: nat, end: nat, stop: nat, maxFiles: nat, maxBytes: nat)
    requires start <= end <= stop <= |list| && end - start <= maxFiles && Bytes(list, 0, |list|) < maxBytes
    ensures FillEnd(list, start, end, stop, maxFiles, maxBytes) == if start + maxFiles > stop then stop else start + maxFiles
    decreases |list| - end
  {
    if end < stop && end - start < maxFiles {
      BytesSplit(list, 0, start, |list|);
      BytesSplit(list, start, end + 1, |list|);
      FillEndUnbounded(list, start, end + 1, stop, maxFiles, maxBytes);
    }
  }

  /** Below the byte limit the two planners make the same batches. */
  lemma {:induction false} PlannersAgree(list: seq<Item>, start: nat, maxFiles: nat, maxBytes: nat)
    requires start <= |list| && 0 < maxFiles && Bytes(list, 0, |list|) < maxBytes
    ensures BoundedCuts(list, start, maxFiles, maxBytes) == CountCuts(list, start, maxFiles)
    decreases |list| - start
  {
    if start < |list| {
      FillEndUnbounded(list, start, start, ParentEnd(list, start, start + 1), maxFiles, maxBytes);
      BoundedEndAdvances(list, start, maxFiles, maxBytes);
      PlannersAgree(list, BoundedEnd(list, start, maxFiles, maxBytes), maxFiles, maxBytes);
    }
  }
}
