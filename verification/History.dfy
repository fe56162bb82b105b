/**
 The bounded, most-recent-first comparison history (apps/web/src/App.tsx).
 */
module History {
  /** What is saved; everything but the comparison id is carried along untouched. */
  datatype Entry<P> = Entry(comparisonId: string, payload: P)

  const MAX_COMPARISON_HISTORY_ENTRIES := 8

  function Take<T>(s: seq<T>, n: nat): seq<T> {
    if |s| <= n then s else s[..n]
  }

  /** `history.filter((candidate) => candidate.comparisonId !== id)` */
  function Without<P>(history: seq<Entry<P>>, id: string): seq<Entry<P>> {
    if history == [] then []
    else if history[0].comparisonId == id then Without(history[1..], id)
    else [history[0]] + Without(history[1..], id)
  }

  function SaveComparisonHistoryEntry<P>(history: seq<Entry<P>>, entry: Entry<P>): seq<Entry<P>> {
    Take([entry] + Without(history, entry.comparisonId), MAX_COMPARISON_HISTORY_ENTRIES)
  }

  /** What is stored after saving the entries of `log`, oldest first, into an empty history. */
  function Stored<P>(log: seq<Entry<P>>): seq<Entry<P>> {
    if log == [] then []
    else SaveComparisonHistoryEntry(Stored(log[..|log| - 1]), log[|log| - 1])
  }

  // ---- The unbounded history it stands for -------------------------------------------

  /** The position of the last save under `id`, or -1. */
  function LastSave<P>(log: seq<Entry<P>>, id: string): (i: int)
    ensures -1 <= i < |log|
    ensures i >= 0 ==> log[i].comparisonId == id
    ensures forall j :: i < j < |log| ==> log[j].comparisonId != id
  {
    if log == [] then -1
    else if log[|log| - 1].comparisonId == id then |log| - 1
    else LastSave(log[..|log| - 1], id)
  }

  /** Every listed entry is the latest save under its id. */
  ghost predicate ListsOnlyLatest<P>(history: seq<Entry<P>>, log: seq<Entry<P>>) {
    forall i :: 0 <= i < |history| ==>
      var k := LastSave(log, history[i].comparisonId);
      k >= 0 && log[k] == history[i]
  }

  /** Later saves come first; so no id is listed twice. */
  ghost predicate MostRecentFirst<P>(history: seq<Entry<P>>, log: seq<Entry<P>>) {
    forall i, j :: 0 <= i < j < |history| ==>
      LastSave(log, history[i].comparisonId) > LastSave(log, history[j].comparisonId)
  }

  ghost predicate Lists<P>(history: seq<Entry<P>>, id: string) {
    exists i :: 0 <= i < |history| && history[i].comparisonId == id
  }

  /** No saved id is missing. */
  ghost predicate CoversLog<P>(history: seq<Entry<P>>, log: seq<Entry<P>>) {
    forall k :: 0 <= k < |log| ==> Lists(history, log[k].comparisonId)
  }

  /** The unbounded list, built by the same moves without the cut. */
  function Latest<P>(log: seq<Entry<P>>): seq<Entry<P>> {
    if log == [] then []
    else
      var entry := log[|log| - 1];
      [entry] + Without(Latest(log[..|log| - 1]), entry.comparisonId)
  }

  predicate DistinctIds<P>(history: seq<Entry<P>>) {
    forall i, j :: 0 <= i < j < |history| ==> history[i].comparisonId != history[j].comparisonId
  }

  lemma {:induction false} WithoutKeeps<P>(history: seq<Entry<P>>, id: string, e: Entry<P>)
    ensures e in Without(history, id) <==> e in history && e.comparisonId != id
  {
    if history != [] {
      WithoutKeeps(history[1..], id, e);
      assert history == [history[0]] + history[1..];
    }
  }

  /** Saving under another id does not change where an id was last saved. */
  lemma LastSaveStep<P>(init: seq<Entry<P>>, entry: Entry<P>, id: string)
    ensures LastSave(init + [entry], id) == if entry.comparisonId == id then |init| else LastSave(init, id)
  {
    assert (init + [entry])[..|init|] == init;
  }

  /** A filtered entry comes from a position in the original, with positions in the original order. */
  lemma {:induction false} WithoutOrder<P>(history: seq<Entry<P>>, id: string, i: nat, j: nat) returns (k: nat, l: nat)
    requires i < j < |Without(history, id)|
    ensures k < l < |history|
    ensures history[k] == Without(history, id)[i] && history[l] == Without(history, id)[j]
  {
    if history[0].comparisonId == id {
      k, l := WithoutOrder(history[1..], id, i, j);
      k, l := k + 1, l + 1;
    } else if i > 0 {
      k, l := WithoutOrder(history[1..], id, i - 1, j - 1);
      k, l := k + 1, l + 1;
    } else {
      var e := Without(history, id)[j];
      assert e in Without(history[1..], id);
      WithoutKeeps(history[1..], id, e);
      var m :| 0 <= m < |history[1..]| && history[1..][m] == e;
      k, l := 0, m + 1;
    }
  }

  lemma ListsOnlyLatestStep<P>(before: seq<Entry<P>>, init: seq<Entry<P>>, entry: Entry<P>)
    requires ListsOnlyLatest(before, init)
    ensures ListsOnlyLatest([entry] + Without(before, entry.comparisonId), init + [entry])
  {
    var after := Without(before, entry.comparisonId);
    LastSaveStep(init, entry, entry.comparisonId);
    forall i | 0 <= i < |after|
      ensures var k := LastSave(init + [entry], after[i].comparisonId); k >= 0 && (init + [entry])[k] == after[i]
    {
      WithoutKeeps(before, entry.comparisonId, after[i]);
      LastSaveStep(init, entry, after[i].comparisonId);
    }
  }

  lemma MostRecentFirstStep<P>(before: seq<Entry<P>>, init: seq<Entry<P>>, entry: Entry<P>)
    requires MostRecentFirst(before, init)
    ensures MostRecentFirst([entry] + Without(before, entry.comparisonId), init + [entry])
  {
    var after := Without(before, entry.comparisonId);
    LastSaveStep(init, entry, entry.comparisonId);
    forall i | 0 <= i < |after|
      ensures LastSave(init + [entry], after[i].comparisonId) == LastSave(init, after[i].comparisonId)
    {
      WithoutKeeps(before, entry.comparisonId, after[i]);
      LastSaveStep(init, entry, after[i].comparisonId);
    }
    forall i, j | 0 <= i < j < |after|
      ensures LastSave(init, after[i].comparisonId) > LastSave(init, after[j].comparisonId)
    {
      var k, l := WithoutOrder(before, entry.comparisonId, i, j);
    }
  }

  lemma CoversLogStep<P>(before: seq<Entry<P>>, init: seq<Entry<P>>, entry: Entry<P>)
    requires CoversLog(before, init)
    ensures CoversLog([entry] + Without(before, entry.comparisonId), init + [entry])
  {
    var after := [entry] + Without(before, entry.comparisonId);
    assert after[0] == entry;
    forall k | 0 <= k < |init| && init[k].comparisonId != entry.comparisonId
      ensures Lists(after, init[k].comparisonId)
    {
      var i :| 0 <= i < |before| && before[i].comparisonId == init[k].comparisonId;
      WithoutKeeps(before, entry.comparisonId, before[i]);
      assert before[i] in after;
    }
  }

  /** The unbounded list is exactly the log, most recent first, latest save per id. */
  lemma {:induction false} LatestListsLog<P>(log: seq<Entry<P>>)
    ensures ListsOnlyLatest(Latest(log), log)
    ensures MostRecentFirst(Latest(log), log)
    ensures CoversLog(Latest(log), log)
  {
    if log != [] {
      var init, entry := log[..|log| - 1], log[|log| - 1];
      assert log == init + [entry];
      LatestListsLog(init);
      ListsOnlyLatestStep(Latest(init), init, entry);
      MostRecentFirstStep(Latest(init), init, entry);
      CoversLogStep(Latest(init), init, entry);
    }
  }

  lemma LatestIsDistinct<P>(log: seq<Entry<P>>)
    ensures DistinctIds(Latest(log))
  {
    LatestListsLog(log);
  }

  /** Filtering one id out of a cut list and cutting again one shorter is the same as cutting last:
      with distinct ids the filter removes at most one entry. */
  lemma {:induction false} CutThenFilter<P>(history: seq<Entry<P>>, id: string, n: nat)
    requires DistinctIds(history)
    ensures Take(Without(Take(history, n + 1), id), n) == Take(Without(history, id), n)
  {
    if |history| > n + 1 {
      var rest := history[1..];
      assert Take(history, n + 1)[1..] == rest[..n];
      if history[0].comparisonId == id {
        NothingToFilter(rest, id);
        NothingToFilter(rest[..n], id);
      } else if n > 0 {
        CutThenFilter(rest, id, n - 1);
        assert rest[..n] == Take(rest, n);
        var a, b := Without(rest[..n], id), Without(rest, id);
        assert Take([history[0]] + a, n) == [history[0]] + Take(a, n - 1);
        assert Take([history[0]] + b, n) == [history[0]] + Take(b, n - 1);
      }
    }
  }

  lemma {:induction false} NothingToFilter<P>(history: seq<Entry<P>>, id: string)
    requires forall i :: 0 <= i < |history| ==> history[i].comparisonId != id
    ensures Without(history, id) == history
  {
    if history != [] {
      NothingToFilter(history[1..], id);
    }
  }

  /** The stored history is the first MAX entries of the unbounded one, after any sequence of saves:
      cutting early never loses an entry that a later save would have kept. */
  lemma {:induction false} StoredRefinesLatest<P>(log: seq<Entry<P>>)
    ensures Stored(log) == Take(Latest(log), MAX_COMPARISON_HISTORY_ENTRIES)
  {
    if log != [] {
      var n := |log| - 1;
      var entry, before := log[n], Latest(log[..n]);
      StoredRefinesLatest(log[..n]);
      LatestIsDistinct(log[..n]);
      CutThenFilter(before, entry.comparisonId, MAX_COMPARISON_HISTORY_ENTRIES - 1);
      var a := Without(Take(before, MAX_COMPARISON_HISTORY_ENTRIES), entry.comparisonId);
      var b := Without(before, entry.comparisonId);
      assert Take([entry] + a, MAX_COMPARISON_HISTORY_ENTRIES) == [entry] + Take(a, MAX_COMPARISON_HISTORY_ENTRIES - 1);
      assert Take([entry] + b, MAX_COMPARISON_HISTORY_ENTRIES) == [entry] + Take(b, MAX_COMPARISON_HISTORY_ENTRIES - 1);
    }
  }
}
