/**
 * Streaming checkpoint retention: every save lists, sorts and removes, and what is left
 * is what one batch decision over all saves would have kept.
 */
module Checkpoints {
  import opened Prelude

  // ----- The batch answer -----

  function Greater(steps: set<int>, x: int): set<int> {
    set y | y in steps && y > x
  }

  /** The n largest steps: those with fewer than n larger ones. */
  function Top(steps: set<int>, n: nat): set<int> {
    set x | x in steps && |Greater(steps, x)| < n
  }

  lemma {:induction false} Maximum(s: set<int>) returns (m: int)
    requires s != {}
    ensures m in s && forall x | x in s :: x <= m
  {
    var x := Pick(s);
    m := x;
    if s != {x} {
      m := Maximum(s - {x});
      if x > m { m := x; }
    }
    forall y | y in s ensures y <= m {
      if y != x { assert y in s - {x}; }
    }
  }

  /** Everything above a kept step is kept. */
  lemma TopIsUpward(steps: set<int>, n: nat, x: int, y: int)
    requires x in Top(steps, n) && y in steps && x <= y
    ensures y in Top(steps, n)
  {
    SubsetSize(Greater(steps, y), Greater(steps, x));
  }

  /** If some step is dropped, n steps are kept. */
  lemma DroppedMeansFull(steps: set<int>, n: nat, z: int)
    requires z in steps && z !in Top(steps, n)
    ensures |Top(steps, n)| >= n
  {
    assert z in steps - Top(steps, n);
    var w := Maximum(steps - Top(steps, n));
    assert forall y | y in steps :: y in Top(steps, n) || y in steps - Top(steps, n);
    SubsetSize(Greater(steps, w), Top(steps, n));
  }

  /** Whatever is above a step of the batch answer was kept along the way. */
  lemma AboveKept(steps: set<int>, x: int, n: nat, y: int)
    requires y in Top(steps + {x}, n)
    ensures y in Top(steps, n) + {x}
    ensures Greater(Top(steps, n) + {x}, y) == Greater(steps + {x}, y)
  {
    var above := Greater(steps + {x}, y);
    forall z | z in above && z in steps ensures z in Top(steps, n) {
      SubsetSize(Greater(steps, z), above);
    }
    SubsetSize(Greater(steps, y), above);
  }

  /** Keeping the n largest step by step keeps the n largest of all. */
  lemma TopStreams(steps: set<int>, x: int, n: nat)
    ensures Top(Top(steps, n) + {x}, n) == Top(steps + {x}, n)
  {
    var kept := Top(steps, n) + {x};
    forall y ensures y in Top(kept, n) <==> y in Top(steps + {x}, n) {
      if y in Top(steps + {x}, n) {
        AboveKept(steps, x, n, y);
      }
      if y in Top(kept, n) {
        forall z | z in steps && z > y ensures z in Top(steps, n) {
          if z !in Top(steps, n) {
            DroppedMeansFull(steps, n, z);
            forall k | k in Top(steps, n) ensures k in Greater(kept, y) {
              if k <= z { TopIsUpward(steps, n, k, z); }
            }
            SubsetSize(Top(steps, n), Greater(kept, y));
          }
        }
        assert Greater(kept, y) == Greater(steps + {x}, y);
      }
    }
  }

  // ----- The manager -----

  datatype Info = Info(loss: real)

  datatype SaveError = MissingLoss | ModelSaveFailed | MetadataFailed

  /** Writing the metadata file: done, refused before the old file is touched, or cut off half way. */
  datatype MetadataWrite = Written | Refused | Torn

  predicate Sorted(xs: seq<int>) {
    forall i, j | 0 <= i < j < |xs| :: xs[i] < xs[j]
  }

  function Elements(xs: seq<int>): set<int> {
    set x | x in xs
  }

  lemma {:induction false} ElementsSize(xs: seq<int>)
    requires Sorted(xs)
    ensures |Elements(xs)| == |xs|
  {
    if xs != [] {
      var n := |xs| - 1;
      ElementsSize(xs[..n]);
      assert Elements(xs) == Elements(xs[..n]) + {xs[n]};
    }
  }

  predicate Below(smaller: set<int>, larger: set<int>) {
    forall x, y | x in smaller && y in larger :: x < y
  }

  lemma SortedSnoc(xs: seq<int>, x: int)
    requires Sorted(xs) && Below(Elements(xs), {x})
    ensures Sorted(xs + [x]) && Elements(xs + [x]) == Elements(xs) + {x}
  {
    forall i | 0 <= i < |xs| ensures xs[i] < x { assert xs[i] in Elements(xs); }
  }

  lemma Minimum(s: set<int>) returns (m: int)
    requires s != {}
    ensures m in s && forall x | x in s :: m <= x
  {
    var negated := set x | x in s :: -x;
    var y := Pick(s);
    assert -y in negated;
    m := Maximum(negated);
    m := -m;
    forall x | x in s ensures m <= x {
      assert -x in negated;
    }
  }

  /** How many of the sorted steps a clean-up removes; a negative limit keeps none. */
  function Excess(count: nat, limit: int): nat {
    if count <= limit then 0 else if limit < 0 then count else count - limit
  }

  function Limit(limit: int): nat {
    if limit < 0 then 0 else limit
  }

  /** Cutting the sorted list where the clean-up cuts it leaves the batch answer. */
  lemma CutKeepsTop(steps: set<int>, sorted: seq<int>, limit: int)
    requires Sorted(sorted) && Elements(sorted) == steps
    ensures Elements(sorted[Excess(|sorted|, limit)..]) == Top(steps, Limit(limit))
    ensures steps - Elements(sorted[..Excess(|sorted|, limit)]) == Top(steps, Limit(limit))
  {
    var k := Excess(|sorted|, limit);
    forall i | 0 <= i < |sorted|
      ensures sorted[i] in Top(steps, Limit(limit)) <==> k <= i
    {
      assert Greater(steps, sorted[i]) == Elements(sorted[i + 1..]);
      ElementsSize(sorted[i + 1..]);
    }
  }

  method Least(steps: set<int>) returns (least: int)
    requires steps != {}
    ensures least in steps && Below({least}, steps - {least})
  {
    ghost var m := Minimum(steps);
    least :| least in steps && forall y | y in steps :: least <= y;
  }

  /** The listing in ascending order of steps. */
  method SortSteps(steps: set<int>) returns (sorted: seq<int>)
    ensures Sorted(sorted) && Elements(sorted) == steps
  {
    var remaining := steps;
    sorted := [];
    while remaining != {}
      invariant Sorted(sorted) && Elements(sorted) + remaining == steps
      invariant Below(Elements(sorted), remaining)
      decreases remaining
    {
      var least := Least(remaining);
      SortedSnoc(sorted, least);
      sorted := sorted + [least];
      remaining := remaining - {least};
    }
  }

  class CheckpointManager {
    const saveTotalLimit: int
    /** The checkpoint directories, each with its metadata if that can be read. */
    var dirs: map<int, Option<Info>>

    /** The steps the listing finds: directories with metadata. */
    function Steps(): set<int>
      reads this
    {
      set s | s in dirs && dirs[s].Some?
    }

    constructor (limit: int)
      ensures saveTotalLimit == limit && dirs == map[]
    {
      saveTotalLimit, dirs := limit, map[];
    }

    /** Removes the smallest listed steps down to the limit; a failed removal is skipped. */
    method CleanupOldCheckpoints(unremovable: set<int>) returns (removed: seq<int>)
      modifies this
      ensures Steps() == Top(old(Steps()), Limit(saveTotalLimit)) + (old(Steps()) * unremovable)
      ensures forall s | s in Steps() :: s in old(dirs) && dirs[s] == old(dirs)[s]
      ensures Elements(removed) == old(Steps()) - Steps()
    {
      var sorted := SortSteps(Steps());
      var k := Excess(|sorted|, saveTotalLimit);
      CutKeepsTop(Steps(), sorted, saveTotalLimit);
      removed := [];
      for i := 0 to k
        invariant k <= |sorted|
        invariant dirs == old(dirs) - (Elements(sorted[..i]) - unremovable)
        invariant Elements(removed) == Elements(sorted[..i]) - unremovable
      {
        assert Elements(sorted[..i + 1]) == Elements(sorted[..i]) + {sorted[i]};
        if sorted[i] !in unremovable {
          dirs := dirs - {sorted[i]};
          assert Elements(removed + [sorted[i]]) == Elements(removed) + {sorted[i]};
          removed := removed + [sorted[i]];
        }
      }
    }

    /** Make the directory, save the model, write the metadata, then clean up. */
    method SaveCheckpoint(step: int, loss: Option<real>, modelSaves: bool, metadata: MetadataWrite,
                          autoCleanup: bool, unremovable: set<int>)
      returns (r: Result<Info, SaveError>)
      modifies this
      ensures loss.None? ==> r == Err(MissingLoss) && dirs == old(dirs)
      ensures loss.Some? && !modelSaves ==> r == Err(ModelSaveFailed) && Steps() == old(Steps())
      ensures loss.Some? && modelSaves && !metadata.Written? ==>
                && r == Err(MetadataFailed)
                && Steps() == (if metadata.Torn? then old(Steps()) - {step} else old(Steps()))
      ensures loss.Some? && modelSaves && metadata.Written? ==>
                && r == Ok(Info(loss.value))
                && Steps() == (if autoCleanup
                               then Top(old(Steps()) + {step}, Limit(saveTotalLimit)) + ((old(Steps()) + {step}) * unremovable)
                               else old(Steps()) + {step})
                && (step in Steps() ==> dirs[step] == Some(Info(loss.value)))
      ensures forall s | s in Steps() && s != step :: s in old(dirs) && dirs[s] == old(dirs)[s]
    {
      if loss.None? {
        return Err(MissingLoss);
      }
      if step !in dirs {
        dirs := dirs[step := None];
      }
      if !modelSaves {
        assert Steps() == old(Steps());
        return Err(ModelSaveFailed);
      }
      match metadata {
        case Refused =>
          assert Steps() == old(Steps());
          return Err(MetadataFailed);
        case Torn =>
          dirs := dirs[step := None];
          assert Steps() == old(Steps()) - {step};
          return Err(MetadataFailed);
        case Written => dirs := dirs[step := Some(Info(loss.value))];
      }
      assert Steps() == old(Steps()) + {step};
      if autoCleanup {
        var _ := CleanupOldCheckpoints(unremovable);
      }
      return Ok(Info(loss.value));
    }

    method FindLatestCheckpoint() returns (latest: Option<int>)
      ensures latest.None? <==> Steps() == {}
      ensures latest.Some? ==> latest.value in Steps() && forall s | s in Steps() :: s <= latest.value
    {
      var steps := Steps();
      if steps == {} {
        return None;
      }
      ghost var m := Maximum(steps);
      var x :| x in steps && forall y | y in steps :: y <= x;
      return Some(x);
    }
  }

  // ----- Any run of saves -----

  /** The retained steps after auto-cleaning saves whose removals succeed, oldest first. */
  function Retained(saves: seq<int>, limit: int): set<int> {
    if saves == [] then {}
    else Top(Retained(saves[..|saves| - 1], limit) + {saves[|saves| - 1]}, Limit(limit))
  }

  /**
   * After any sequence of saves, in any step order and with re-saves, the retained steps
   * are the largest distinct steps ever saved, as many as the limit allows.
   */
  lemma {:induction false} RetainedIsBatch(saves: seq<int>, limit: int)
    ensures Retained(saves, limit) == Top(Elements(saves), Limit(limit))
  {
    if saves != [] {
      var before, last := saves[..|saves| - 1], saves[|saves| - 1];
      RetainedIsBatch(before, limit);
      TopStreams(Elements(before), last, Limit(limit));
      assert Elements(saves) == Elements(before) + {last};
    }
  }

  /** With a limit of at least one, the latest retained checkpoint is the overall maximum. */
  lemma LatestIsOverallMaximum(saves: seq<int>, limit: int, m: int)
    requires limit >= 1 && m in saves && forall x | x in saves :: x <= m
    ensures m in Retained(saves, limit) && forall x | x in Retained(saves, limit) :: x <= m
  {
    RetainedIsBatch(saves, limit);
    assert Greater(Elements(saves), m) == {};
  }

  /** At most the limit is retained, and exactly that many once enough steps were saved. */
  lemma RetainedCount(saves: seq<int>, limit: int)
    ensures var most := if limit < 0 then 0 else limit;
            |Retained(saves, limit)| == if |Elements(saves)| <= most then |Elements(saves)| else most
  {
    RetainedIsBatch(saves, limit);
    var sorted := SortOf(Elements(saves));
    CutKeepsTop(Elements(saves), sorted, limit);
    ElementsSize(sorted);
    ElementsSize(sorted[Excess(|sorted|, limit)..]);
  }

  lemma {:induction false} SortOf(steps: set<int>) returns (sorted: seq<int>)
    ensures Sorted(sorted) && Elements(sorted) == steps
  {
    if steps == {} {
      sorted := [];
    } else {
      var m := Maximum(steps);
      var rest := SortOf(steps - {m});
      sorted := rest + [m];
      SortedSnoc(rest, m);
    }
  }
}
