/** Saving an edited period: an upsert of the draft by date window. */
module EditMerge {
  import opened Wrappers
  import opened Records

  /** `pd.concat([df[~mask], draft])`: the committed records outside the
      window, in their order, then every draft record, in its order, whether
      or not its date lies in the window. */
  function Merge(committed: seq<Record>, w: Window, draft: seq<Record>): (merged: seq<Record>)
    ensures |merged| == |committed| - |Filter(committed, w)| + |draft|
    ensures merged[|merged| - |draft|..] == draft
    ensures forall r :: r in committed && !InWindow(r, w) ==> r in merged
    ensures forall r :: r in committed && r.date.None? ==> r in merged
    ensures forall r :: r in merged && InWindow(r, w) ==> r in draft
  {
    FilterExcludePartition(committed, w);
    Exclude(committed, w) + draft
  }

  /** As multisets, saving removes the window's committed records and adds the draft. */
  lemma MergeMultiset(committed: seq<Record>, w: Window, draft: seq<Record>)
    ensures multiset(Merge(committed, w, draft)) + multiset(Filter(committed, w))
            == multiset(committed) + multiset(draft)
  {
    FilterExcludePartition(committed, w);
  }

  /** Reading the window back after a save gives the draft's in-window records. */
  lemma FilterAfterMerge(committed: seq<Record>, w: Window, draft: seq<Record>)
    ensures Filter(Merge(committed, w, draft), w) == Filter(draft, w)
  {
    var kept := Exclude(committed, w);
    SelectAppend(kept, draft, w, true);
    forall i | 0 <= i < |kept| ensures !InWindow(kept[i], w) {
      assert kept[i] in kept;
    }
    SelectKeepsNone(kept, w, true);
  }

  /** When every draft record is dated in the window, the window reads back
      exactly as the draft. */
  lemma FilterAfterMergeIsDraft(committed: seq<Record>, w: Window, draft: seq<Record>)
    requires forall i :: 0 <= i < |draft| ==> InWindow(draft[i], w)
    ensures Filter(Merge(committed, w, draft), w) == draft
  {
    FilterAfterMerge(committed, w, draft);
    SelectKeepsAll(draft, w, true);
  }

  /** Outside the window, a save keeps the committed records and adds the
      draft records that were moved out of the window. */
  lemma ExcludeAfterMerge(committed: seq<Record>, w: Window, draft: seq<Record>)
    ensures Exclude(Merge(committed, w, draft), w) == Exclude(committed, w) + Exclude(draft, w)
  {
    var kept := Exclude(committed, w);
    SelectAppend(kept, draft, w, false);
    forall i | 0 <= i < |kept| ensures !InWindow(kept[i], w) {
      assert kept[i] in kept;
    }
    SelectKeepsAll(kept, w, false);
  }

  /** Saving the same draft twice repeats its out-of-window records; the
      second save changes nothing exactly when the draft lies in the window. */
  lemma MergeTwice(committed: seq<Record>, w: Window, draft: seq<Record>)
    ensures Merge(Merge(committed, w, draft), w, draft)
            == Exclude(committed, w) + Exclude(draft, w) + draft
    ensures Merge(Merge(committed, w, draft), w, draft) == Merge(committed, w, draft)
            <==> Exclude(draft, w) == []
  {
    ExcludeAfterMerge(committed, w, draft);
    var a, b := Exclude(committed, w), Exclude(draft, w);
    if a + b + draft == a + draft {
      assert |b| == 0;
    }
  }

  /** Saving a period's records unchanged keeps the table's records (it only
      moves the period's records to the end). */
  lemma MergeUneditedKeepsRecords(committed: seq<Record>, w: Window)
    ensures multiset(Merge(committed, w, Filter(committed, w))) == multiset(committed)
  {
    FilterExcludePartition(committed, w);
  }
}
