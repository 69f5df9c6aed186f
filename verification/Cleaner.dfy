/** Deleting old instances, and finding the first survivor again after a crash. */
module LogCleaner {
  import opened PaxosTypes

  const SAVE_INTERVAL := 100

  /** The instances a contiguous log holds. */
  function Range(first: nat, top: nat): set<nat> {
    set i: nat | first <= i < top && Between(first, i, top)
  }

  predicate Between(first: nat, i: nat, top: nat) {
    first <= i < top
  }

  /**
   * `stored` are the instances in the log's index, `gone` those among them whose value file
   * has been deleted, so that reading them fails; `saved` is the min-chosen id on disk.
   * `cp` is the first instance the checkpoint lacks, `top` the present one.
   */
  class Cleaner {
    const hold: nat
    var stored: set<nat>
    var gone: set<nat>
    var minChosen: nat
    var saved: nat
    var lastSave: nat
    /** The first surviving instance. */
    ghost var first: nat

    ghost predicate Valid(cp: nat, top: nat)
      reads this
    {
      && first <= top && cp <= top && stored == Range(first, top)
      && (first == 0 || first + hold <= cp)
      && (minChosen == first || minChosen + 1 == first)
      && saved <= first
      && (first <= saved + 1 || first <= lastSave + SAVE_INTERVAL + 1)
      && lastSave <= saved
      && gone <= stored && forall i :: i in gone ==> i + hold < cp
    }

    constructor (hold: nat, cp: nat, top: nat)
      requires cp <= top
      ensures Valid(cp, top) && this.hold == hold && gone == {}
    {
      this.hold := hold;
      stored, gone := Range(0, top), {};
      minChosen, saved, lastSave, first := 0, 0, 0, 0;
    }

    /** The log grows and checkpoints move on, whatever the cleaner does. */
    method NewInstance(cp: nat, top: nat, cp': nat)
      requires Valid(cp, top) && cp <= cp' <= top + 1
      modifies this`stored
      ensures Valid(cp', top + 1)
      ensures stored == old(stored) + {top} && gone == old(gone)
    {
      stored := stored + {top};
      assert Range(first, top + 1) == Range(first, top) + {top};
    }

    method DeleteOne(i: nat, cp: nat, top: nat)
      requires Valid(cp, top) && (i == first || i + 1 == first) && i + hold < cp && i < top
      modifies this
      ensures Valid(cp, top) && first == i + 1 && stored == old(stored) - {i} && gone == old(gone) - {i}
    {
      stored, gone := stored - {i}, gone - {i};
      first := i + 1;
      assert stored == Range(first, top);
      minChosen := i;
      if i >= lastSave + SAVE_INTERVAL {
        saved := i + 1;
        minChosen := i + 1;
        lastSave := i;
      }
    }

    /**
     * One round of the delete loop, stopped by `budget` at any point.  Exactly the
     * instances below the new `first` go; unless it was stopped, nothing is left that may go.
     */
    method Clean(cp: nat, top: nat, budget: nat)
      requires Valid(cp, top)
      modifies this
      ensures Valid(cp, top) && gone <= old(gone) && first >= old(first)
      ensures forall i :: i in stored <==> i in old(stored) && i >= first
      ensures forall i :: i in old(stored) && i + hold >= cp ==> i in stored
      ensures (forall i :: i in stored ==> i + hold >= cp || i + hold >= top) || first >= old(minChosen) + budget
    {
      var i: nat := minChosen;
      var left := budget;
      while i + hold < cp && i + hold < top && left > 0
        invariant Valid(cp, top) && (i == first || i + 1 == first) && gone <= old(gone) && first >= old(first)
        invariant forall j :: j in stored <==> j in old(stored) && j >= first
        invariant forall j :: j in old(stored) && j + hold >= cp ==> j in stored
        invariant i + left == old(minChosen) + budget
        decreases left
      {
        DeleteOne(i, cp, top);
        i := i + 1;
        left := left - 1;
      }
    }

    /**
     * A crash and the start after it: the cached id is lost, and the last deletes may be
     * undone, `back` of them, none older than the last save.  The value files of some of
     * these, `lost`, may be gone already.  The start is refused if and only if the first
     * instance in the index is one of those and lies where the fix looks.
     */
    method Restart(cp: nat, top: nat, ghost back: nat, undone: set<nat>, lost: set<nat>) returns (ret: int)
      requires Valid(cp, top) && saved + back <= first && undone == Range(first - back, first) && lost <= undone
      modifies this
      ensures first == old(first) - back && stored == old(stored) + undone && gone == old(gone) + lost
      ensures ret != 0 <==> first in gone && first < old(saved) + SAVE_INTERVAL
      ensures ret == 0 ==> Valid(cp, top)
      ensures ret != 0 ==> saved == old(saved)
    {
      first := first - back;
      stored, gone := stored + undone, gone + lost;
      assert stored == Range(first, top);
      lastSave := 0;
      minChosen := saved;
      ret := FixMinChosenInstanceID(cp, top);
    }

    /** Step over what was deleted since the last save; what cannot be read is not stepped over. */
    method FixMinChosenInstanceID(cp: nat, top: nat) returns (ret: int)
      requires first <= top && cp <= top && stored == Range(first, top) && (first == 0 || first + hold <= cp)
      requires minChosen == saved <= first <= saved + SAVE_INTERVAL + 1 && lastSave == 0
      requires gone <= stored && forall i :: i in gone ==> i + hold < cp
      modifies this`minChosen, this`saved
      ensures ret != 0 <==> first in gone && first < old(saved) + SAVE_INTERVAL
      ensures if ret != 0 then saved == old(saved) && minChosen == old(minChosen)
              else Valid(cp, top) && minChosen == if first <= old(saved) + SAVE_INTERVAL then first else first - 1
    {
      var fix := minChosen;
      for i := minChosen to minChosen + SAVE_INTERVAL
        invariant fix == i <= first
        invariant minChosen == old(minChosen) && saved == old(saved)
      {
        if i >= cp {
          break;
        }
        ret := Get(i);
        if ret != 0 && ret != 1 {
          return -1;
        }
        if ret != 1 {
          break;
        }
        fix := i + 1;
      }
      if fix > minChosen {
        saved := fix;
        minChosen := fix;
      }
      ret := 0;
    }

    /** 0 for a value, 1 for none, less when the value cannot be read. */
    method Get(i: nat) returns (ret: int)
      ensures ret == if i !in stored then 1 else if i in gone then -1 else 0
    {
      if i !in stored {
        return 1;
      }
      ret := if i in gone then -1 else 0;
    }

    /** What the log replay needs after a start: its first instance is not refused, and all are there. */
    lemma PlayLogReadable(cp: nat, top: nat)
      requires Valid(cp, top)
      ensures cp >= minChosen
      ensures forall i :: cp <= i < top ==> i in stored && i !in gone
      ensures minChosen == first || minChosen + 1 == first
      ensures forall i :: i in stored ==> minChosen <= i
    {
    }
  }
}
