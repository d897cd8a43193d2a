/** The dashboard page (resources/js/pages/Dashboard.jsx): the entries grouped
    by date, newest date first, and the delete confirmation dialog. */
module DashboardPage {
  import opened Common
  import DateOrder

  /** An entry as `GET /diaries` returns it, as far as the page uses it. */
  datatype Diary = Diary(id: Id, title: string, content: string, date: Date)

  /** One element of `groupedDiaries`. */
  datatype Group = Group(date: Date, entries: seq<Diary>)

  /** The diaries dated `d`, in their order in `diaries`. */
  function EntriesOn(diaries: seq<Diary>, d: Date): seq<Diary>
    decreases |diaries|
  {
    if diaries == [] then []
    else
      var last := diaries[|diaries| - 1];
      EntriesOn(diaries[..|diaries| - 1], d) + (if last.date == d then [last] else [])
  }

  /** The dates present in `diaries`. */
  predicate HasDate(diaries: seq<Diary>, d: Date)
  {
    exists i :: 0 <= i < |diaries| && diaries[i].date == d
  }

  lemma {:induction false} EntriesOnMatch(diaries: seq<Diary>, d: Date)
    ensures forall x :: x in EntriesOn(diaries, d) ==> x.date == d && x in diaries
    ensures forall i :: 0 <= i < |diaries| && diaries[i].date == d ==> diaries[i] in EntriesOn(diaries, d)
    ensures EntriesOn(diaries, d) == [] <==> !HasDate(diaries, d)
    decreases |diaries|
  {
    if diaries != [] {
      var init := diaries[..|diaries| - 1];
      EntriesOnMatch(init, d);
      assert forall i :: 0 <= i < |init| ==> init[i] == diaries[i];
      if HasDate(init, d) {
        var i :| 0 <= i < |init| && init[i].date == d;
        assert diaries[i].date == d;
      }
    }
  }

  /** The grouping the dashboard displays: each group holds exactly the
      diaries of its date in fetched order, the group dates are exactly the
      dates present, and they strictly decrease. */
  predicate IsGrouping(diaries: seq<Diary>, groups: seq<Group>)
  {
    && (forall k :: 0 <= k < |groups| ==> groups[k].entries == EntriesOn(diaries, groups[k].date))
    && (forall k :: 0 <= k < |groups| ==> HasDate(diaries, groups[k].date))
    && (forall i :: 0 <= i < |diaries| ==> HasGroup(groups, diaries[i].date))
    && (forall j, k :: 0 <= j < k < |groups| ==> Earlier(groups[k].date, groups[j].date))
  }

  /** Some group is dated `d`. */
  predicate HasGroup(groups: seq<Group>, d: Date)
  {
    exists k :: 0 <= k < |groups| && groups[k].date == d
  }

  function Identity(d: Date): Date
  {
    d
  }

  lemma SnocEntries(init: seq<Diary>, x: Diary)
    ensures forall d :: EntriesOn(init + [x], d) == EntriesOn(init, d) + (if x.date == d then [x] else [])
    ensures forall d :: HasDate(init + [x], d) <==> HasDate(init, d) || x.date == d
  {
    var s := init + [x];
    assert s[..|s| - 1] == init;
    forall d | HasDate(init, d) ensures HasDate(s, d) {
      var j :| 0 <= j < |init| && init[j].date == d;
      assert s[j] == init[j];
    }
    forall d | x.date == d ensures HasDate(s, d) {
      assert s[|init|].date == d;
    }
    forall d | HasDate(s, d) && x.date != d ensures HasDate(init, d) {
      var j :| 0 <= j < |s| && s[j].date == d;
      assert init[j] == s[j];
    }
  }

  /** `buckets` maps each date present to its diaries in order, and `keys`
      lists those dates once each. */
  ghost predicate Bucketed(diaries: seq<Diary>, buckets: map<Date, seq<Diary>>, keys: seq<Date>)
  {
    && Distinct(keys)
    && (forall d :: d in buckets <==> d in keys)
    && (forall d :: d in buckets ==> buckets[d] == EntriesOn(diaries, d))
    && (forall d :: d in buckets <==> HasDate(diaries, d))
  }

  /** The `forEach` of `groupedDiaries`: each diary pushed onto the list of its
      date, a list created on the first diary of a date. */
  method Bucket(diaries: seq<Diary>) returns (buckets: map<Date, seq<Diary>>, keys: seq<Date>)
    ensures Bucketed(diaries, buckets, keys)
  {
    buckets := map[];
    keys := [];   // Object.keys order: first appearance
    for i := 0 to |diaries|
      invariant Distinct(keys)
      invariant forall d :: d in buckets <==> d in keys
      invariant forall d :: d in buckets ==> buckets[d] == EntriesOn(diaries[..i], d)
      invariant forall d :: d in buckets <==> HasDate(diaries[..i], d)
    {
      var diary := diaries[i];
      assert diaries[..i + 1] == diaries[..i] + [diary];
      SnocEntries(diaries[..i], diary);
      if diary.date !in buckets {
        EntriesOnMatch(diaries[..i], diary.date);
        buckets := buckets[diary.date := []];
        keys := keys + [diary.date];
      }
      buckets := buckets[diary.date := buckets[diary.date] + [diary]];
    }
    assert diaries[..|diaries|] == diaries;
  }

  /** The `map` of the sorted dates to groups. */
  function ToGroups(dates: seq<Date>, buckets: map<Date, seq<Diary>>): (groups: seq<Group>)
    requires forall k :: 0 <= k < |dates| ==> dates[k] in buckets
    ensures |groups| == |dates|
    ensures forall k :: 0 <= k < |dates| ==> groups[k] == Group(dates[k], buckets[dates[k]])
  {
    seq(|dates|, k requires 0 <= k < |dates| => Group(dates[k], buckets[dates[k]]))
  }

  lemma {:induction false} SortedBucketsGroup(diaries: seq<Diary>, buckets: map<Date, seq<Diary>>, keys: seq<Date>, dates: seq<Date>)
    requires Bucketed(diaries, buckets, keys)
    requires multiset(dates) == multiset(keys) && Distinct(dates)
    requires DateOrder.NewestFirst(dates, Identity)
    ensures (forall k :: 0 <= k < |dates| ==> dates[k] in buckets) && IsGrouping(diaries, ToGroups(dates, buckets))
  {
    assert forall k :: 0 <= k < |dates| ==> dates[k] in multiset(keys);
    var groups := ToGroups(dates, buckets);
    forall j, k | 0 <= j < k < |groups| ensures Earlier(groups[k].date, groups[j].date) {
      assert !Earlier(dates[j], dates[k]) && dates[j] != dates[k];
      EarlierIsStrictTotalOrder(dates[j], dates[k], dates[k]);
    }
    forall i | 0 <= i < |diaries| ensures HasGroup(groups, diaries[i].date) {
      assert HasDate(diaries, diaries[i].date);
      assert diaries[i].date in multiset(dates);
      var k :| 0 <= k < |dates| && dates[k] == diaries[i].date;
      assert groups[k].date == diaries[i].date;
    }
  }

  /** `groupedDiaries`: the buckets, then their dates sorted newest first and
      mapped to groups. */
  method GroupByDate(diaries: seq<Diary>) returns (groups: seq<Group>)
    ensures IsGrouping(diaries, groups)
    ensures groups == [] <==> diaries == []
  {
    var buckets, keys := Bucket(diaries);
    var dates := DateOrder.SortNewestFirst(keys, Identity);
    DateOrder.SortNewestFirstCorrect(keys, Identity);
    SortedBucketsGroup(diaries, buckets, keys, dates);
    groups := ToGroups(dates, buckets);
    if diaries != [] {
      assert HasGroup(groups, diaries[0].date);
    }
  }

  /** Every diary lies in exactly one group: the one of its own date. */
  lemma EachDiaryInExactlyOneGroup(diaries: seq<Diary>, groups: seq<Group>, i: int)
    requires IsGrouping(diaries, groups) && 0 <= i < |diaries|
    ensures exists k :: 0 <= k < |groups| && groups[k].date == diaries[i].date && diaries[i] in groups[k].entries
    ensures forall k :: 0 <= k < |groups| && diaries[i] in groups[k].entries ==> groups[k].date == diaries[i].date
    ensures forall j, k :: 0 <= j < |groups| && 0 <= k < |groups| && diaries[i] in groups[j].entries && diaries[i] in groups[k].entries ==> j == k
  {
    assert HasGroup(groups, diaries[i].date);
    var k :| 0 <= k < |groups| && groups[k].date == diaries[i].date;
    EntriesOnMatch(diaries, diaries[i].date);
    forall k' | 0 <= k' < |groups| && diaries[i] in groups[k'].entries ensures groups[k'].date == diaries[i].date {
      EntriesOnMatch(diaries, groups[k'].date);
    }
    forall j, k' | 0 <= j < |groups| && 0 <= k' < |groups| && diaries[i] in groups[j].entries && diaries[i] in groups[k'].entries
      ensures j == k'
    {
      EntriesOnMatch(diaries, groups[j].date);
      EntriesOnMatch(diaries, groups[k'].date);
      if j < k' {
        EarlierIsStrictTotalOrder(groups[k'].date, groups[j].date, groups[j].date);
      } else if k' < j {
        EarlierIsStrictTotalOrder(groups[j].date, groups[k'].date, groups[k'].date);
      }
    }
  }

  /** Group dates are pairwise distinct. */
  lemma GroupDatesDistinct(diaries: seq<Diary>, groups: seq<Group>)
    requires IsGrouping(diaries, groups)
    ensures forall j, k :: 0 <= j < k < |groups| ==> groups[j].date != groups[k].date
  {
    forall j, k | 0 <= j < k < |groups| ensures groups[j].date != groups[k].date {
      EarlierIsStrictTotalOrder(groups[k].date, groups[j].date, groups[j].date);
    }
  }

  /** The number of entries shown over all groups. */
  function TotalEntries(groups: seq<Group>): nat
  {
    if groups == [] then 0 else |groups[0].entries| + TotalEntries(groups[1..])
  }

  /** The dates of `groups`, in order. */
  function Dates(groups: seq<Group>): (ds: seq<Date>)
    ensures |ds| == |groups| && forall k :: 0 <= k < |groups| ==> ds[k] == groups[k].date
  {
    seq(|groups|, k requires 0 <= k < |groups| => groups[k].date)
  }

  /** How many entries of `diaries` fall on the dates `ds`. */
  function CountOn(diaries: seq<Diary>, ds: seq<Date>): nat
  {
    if ds == [] then 0 else |EntriesOn(diaries, ds[0])| + CountOn(diaries, ds[1..])
  }

  /** How often `d` occurs in `ds`. */
  function Occurrences(ds: seq<Date>, d: Date): nat
  {
    if ds == [] then 0 else (if ds[0] == d then 1 else 0) + Occurrences(ds[1..], d)
  }

  lemma {:induction false} CountOnSnoc(init: seq<Diary>, x: Diary, ds: seq<Date>)
    ensures CountOn(init + [x], ds) == CountOn(init, ds) + Occurrences(ds, x.date)
  {
    if ds != [] {
      var s := init + [x];
      assert s[..|s| - 1] == init;
      CountOnSnoc(init, x, ds[1..]);
    }
  }

  lemma {:induction false} OccursOnce(ds: seq<Date>, d: Date)
    requires Distinct(ds) && d in ds
    ensures Occurrences(ds, d) == 1
  {
    assert forall i :: 0 <= i < |ds[1..]| ==> ds[1..][i] == ds[i + 1];
    if ds[0] == d {
      NeverOccurs(ds[1..], d);
    } else {
      OccursOnce(ds[1..], d);
    }
  }

  lemma {:induction false} NeverOccurs(ds: seq<Date>, d: Date)
    requires d !in ds
    ensures Occurrences(ds, d) == 0
  {
    if ds != [] {
      NeverOccurs(ds[1..], d);
    }
  }

  /** Counting the entries of distinct dates that cover all of `diaries`
      counts every diary once. */
  lemma {:induction false} CountOnCovering(diaries: seq<Diary>, ds: seq<Date>)
    requires Distinct(ds)
    requires forall i :: 0 <= i < |diaries| ==> diaries[i].date in ds
    ensures CountOn(diaries, ds) == |diaries|
    decreases |diaries|
  {
    if diaries == [] {
      ZeroCount(ds);
    } else {
      var init := diaries[..|diaries| - 1];
      var x := diaries[|diaries| - 1];
      assert diaries == init + [x];
      assert forall i :: 0 <= i < |init| ==> init[i] == diaries[i];
      CountOnCovering(init, ds);
      CountOnSnoc(init, x, ds);
      OccursOnce(ds, x.date);
    }
  }

  lemma {:induction false} ZeroCount(ds: seq<Date>)
    ensures CountOn([], ds) == 0
  {
    if ds != [] {
      ZeroCount(ds[1..]);
    }
  }

  lemma {:induction false} TotalIsCount(diaries: seq<Diary>, groups: seq<Group>)
    requires forall k :: 0 <= k < |groups| ==> groups[k].entries == EntriesOn(diaries, groups[k].date)
    ensures TotalEntries(groups) == CountOn(diaries, Dates(groups))
  {
    if groups != [] {
      assert Dates(groups)[1..] == Dates(groups[1..]);
      TotalIsCount(diaries, groups[1..]);
    }
  }

  /** The groups hold as many entries as were fetched, and the empty state is
      shown exactly when there are no diaries. */
  lemma GroupingKeepsCount(diaries: seq<Diary>, groups: seq<Group>)
    requires IsGrouping(diaries, groups)
    ensures TotalEntries(groups) == |diaries|
    ensures |groups| == 0 <==> |diaries| == 0
  {
    var ds := Dates(groups);
    GroupDatesDistinct(diaries, groups);
    forall i | 0 <= i < |diaries| ensures diaries[i].date in ds {
      assert HasGroup(groups, diaries[i].date);
      var k :| 0 <= k < |groups| && groups[k].date == diaries[i].date;
      assert ds[k] == diaries[i].date;
    }
    CountOnCovering(diaries, ds);
    TotalIsCount(diaries, groups);
    if diaries != [] {
      assert HasGroup(groups, diaries[0].date);
    }
  }

  /** Of two diaries on the same day, the one fetched first is listed first in
      their group. */
  lemma {:induction false} EntriesOnKeepsOrder(diaries: seq<Diary>, d: Date, i: int, j: int)
    requires 0 <= i < j < |diaries| && diaries[i].date == d && diaries[j].date == d
    ensures exists p, q ::
              && 0 <= p < q < |EntriesOn(diaries, d)|
              && EntriesOn(diaries, d)[p] == diaries[i] && EntriesOn(diaries, d)[q] == diaries[j]
    decreases |diaries|
  {
    var init := diaries[..|diaries| - 1];
    assert forall k :: 0 <= k < |init| ==> init[k] == diaries[k];
    if j < |diaries| - 1 {
      EntriesOnKeepsOrder(init, d, i, j);
      var p, q :| 0 <= p < q < |EntriesOn(init, d)| && EntriesOn(init, d)[p] == diaries[i] && EntriesOn(init, d)[q] == diaries[j];
      assert EntriesOn(diaries, d)[p] == diaries[i] && EntriesOn(diaries, d)[q] == diaries[j];
    } else {
      EntriesOnMatch(init, d);
      assert diaries[i] in EntriesOn(init, d);
      var p :| 0 <= p < |EntriesOn(init, d)| && EntriesOn(init, d)[p] == diaries[i];
      var q := |EntriesOn(init, d)|;
      assert EntriesOn(diaries, d)[p] == diaries[i] && EntriesOn(diaries, d)[q] == diaries[j];
    }
  }

  // ---------------------------------------------------------------------------
  // The delete confirmation dialog

  /** `deleteDialogOpen` and `entryToDelete`. */
  class DeleteDialog {
    var open: bool
    var entryToDelete: Option<Id>

    /** An open dialog always knows which entry it asks about. */
    ghost predicate Valid()
      reads this
    {
      open ==> entryToDelete.Some?
    }

    constructor ()
      ensures Valid() && !open && entryToDelete == None
    {
      open := false;
      entryToDelete := None;
    }

    /** `handleDelete`: remember the entry and open the dialog. */
    method HandleDelete(id: Id)
      modifies this
      ensures Valid() && open && entryToDelete == Some(id)
    {
      entryToDelete := Some(id);
      open := true;
    }

    /** `confirmDelete`: `DELETE /diaries/{id}` only when an id is recorded,
        the list refetched only after a successful delete, and the dialog
        closed with the id cleared whatever the outcome. */
    method ConfirmDelete(deleted: bool) returns (request: Option<Id>, refetch: bool)
      requires Valid()
      modifies this
      ensures request == old(entryToDelete)
      ensures old(open) ==> request.Some?
      ensures refetch <==> request.Some? && deleted
      ensures Valid() && !open && entryToDelete == None
    {
      request := entryToDelete;
      refetch := false;
      if entryToDelete.Some? {
        refetch := deleted;
      }
      open := false;
      entryToDelete := None;
    }

    /** The Cancel button: clears the id; the dialog also reports itself
        closed through `onOpenChange`. */
    method Cancel()
      modifies this
      ensures Valid() && !open && entryToDelete == None
    {
      entryToDelete := None;
      open := false;
    }

    /** `onOpenChange(false)` alone (Escape): closes and keeps the id. */
    method Dismiss()
      modifies this
      ensures Valid() && !open && entryToDelete == old(entryToDelete)
    {
      open := false;
    }
  }
}
