/** What the reconciler finds to do in the table, and how it selects from it. */
module Reconciler {
  import opened Domain
  import opened Repository
  import opened Queries

  // Selection

  function StuckIds(rows: Rows, before: nat): set<Id> { set id | id in rows && Stuck(rows[id], before) }

  function UncleanedIds(rows: Rows, before: nat): set<Id> { set id | id in rows && Uncleaned(rows[id], before) }

  function ToSet(ids: seq<Id>): set<Id> { set id | id in ids }

  /** A result of a query for at most so many of the matching rows, the longest waiting first. */
  ghost predicate Selected(rows: Rows, matching: set<Id>, limit: nat, ids: seq<Id>) {
    && matching <= rows.Keys && NoDuplicates(ids) && |ids| == Min(limit, |matching|)
    && (forall id :: id in ids ==> id in matching)
    && (forall i, id :: 0 <= i < |ids| && id in matching && id !in ids ==>
         ids[i] in rows && rows[ids[i]].updatedAt <= rows[id].updatedAt)
    && (forall i, j :: 0 <= i < j < |ids| ==>
         ids[i] in rows && ids[j] in rows && rows[ids[i]].updatedAt <= rows[ids[j]].updatedAt)
  }

  method Oldest(rows: Rows, ids: set<Id>) returns (oldest: Id)
    requires ids != {} && ids <= rows.Keys
    ensures oldest in ids && forall id :: id in ids ==> rows[oldest].updatedAt <= rows[id].updatedAt
  {
    oldest :| oldest in ids;
    var rest := ids - {oldest};
    while rest != {}
      invariant rest <= ids && oldest in ids
      invariant forall id :: id in ids && id !in rest ==> rows[oldest].updatedAt <= rows[id].updatedAt
      decreases |rest|
    {
      var id :| id in rest;
      if rows[id].updatedAt < rows[oldest].updatedAt {
        oldest := id;
      }
      rest := rest - {id};
    }
  }

  method SelectOldest(rows: Rows, matching: set<Id>, limit: nat) returns (ids: seq<Id>)
    requires matching <= rows.Keys
    ensures Selected(rows, matching, limit, ids)
  {
    ids := [];
    var rest := matching;
    while rest != {} && |ids| < limit
      invariant rest <= matching && NoDuplicates(ids) && |ids| <= limit && |ids| + |rest| == |matching|
      invariant forall i :: 0 <= i < |ids| ==> ids[i] in matching && ids[i] !in rest
      invariant forall id :: id in matching && id !in rest ==> id in ids
      invariant forall i, id :: 0 <= i < |ids| && id in rest ==> rows[ids[i]].updatedAt <= rows[id].updatedAt
      invariant forall i, j :: 0 <= i < j < |ids| ==> rows[ids[i]].updatedAt <= rows[ids[j]].updatedAt
      decreases |rest|
    {
      var id := Oldest(rows, rest);
      ids := ids + [id];
      rest := rest - {id};
    }
  }

  function FailedStale(rows: Rows, before: nat, now: nat): Rows {
    map id | id in rows :: FailStaleUpload(rows[id], before, now)
  }

  // What is left to do

  /** Uploads under way, uploads whose processing has not begun, and rows with files to remove. */
  function Unfinished(rows: Rows): set<Id> { set id | id in rows && rows[id].Live() && rows[id].upload == Uploading }

  function Unprocessed(rows: Rows): set<Id> {
    set id | id in rows && rows[id].Live() && rows[id].upload == Uploaded && rows[id].processing == Pending
  }

  function Dirty(rows: Rows): set<Id> { set id | id in rows && rows[id].Closed() && rows[id].filesRemovedAt.None? }

  /** An upload under way counts double: failing it leaves files to be removed. */
  function Rank(rows: Rows): nat { 2 * |Unfinished(rows)| + |Unprocessed(rows)| + |Dirty(rows)| }

  function StaleIds(rows: Rows, before: nat): set<Id> { set id | id in Unfinished(rows) && rows[id].updatedAt < before }

  /** The five sets a pass is about, relative to a moment. */
  datatype Tasks = Tasks(unfinished: set<Id>, unprocessed: set<Id>, dirty: set<Id>, stuck: set<Id>, uncleaned: set<Id>)

  function TasksOf(rows: Rows, before: nat): Tasks {
    Tasks(Unfinished(rows), Unprocessed(rows), Dirty(rows), StuckIds(rows, before), UncleanedIds(rows, before))
  }

  lemma StaleAreFailed(rows: Rows, before: nat, now: nat)
    requires before <= now
    ensures var a, b := TasksOf(rows, before), TasksOf(FailedStale(rows, before, now), before);
      && b.unfinished == a.unfinished - StaleIds(rows, before)
      && b.unprocessed == a.unprocessed && b.dirty <= a.dirty + StaleIds(rows, before)
      && b.stuck == a.stuck && b.uncleaned == a.uncleaned
  {
  }

  lemma FirstOf(ids: seq<Id>)
    requires ids != []
    ensures ToSet(ids) == {ids[0]} + ToSet(ids[1..])
  {
    assert ids == [ids[0]] + ids[1..];
  }

  lemma RestOf(ids: seq<Id>)
    requires ids != [] && NoDuplicates(ids)
    ensures NoDuplicates(ids[1..]) && ids[0] !in ToSet(ids[1..])
  {
  }

  lemma {:induction false} SizeOf(ids: seq<Id>)
    requires NoDuplicates(ids)
    ensures |ToSet(ids)| == |ids|
    decreases |ids|
  {
    if ids != [] {
      FirstOf(ids);
      RestOf(ids);
      SizeOf(ids[1..]);
    }
  }

  lemma Subtract(a: set<Id>, b: set<Id>)
    requires b <= a
    ensures |a - b| == |a| - |b|
  {
    assert a == (a - b) + b;
  }

  /** Everything left to do has waited long enough. */
  predicate AllOld(rows: Rows, before: nat) {
    forall id :: id in Unfinished(rows) + Unprocessed(rows) + Dirty(rows) ==> rows[id].updatedAt < before
  }

  lemma RankAfter(a: Tasks, stale: set<Id>, stuck: set<Id>, uncleaned: set<Id>, b: Tasks)
    requires stale <= a.unfinished && stuck <= a.unprocessed
    requires b.unfinished == a.unfinished - stale && b.unprocessed == a.unprocessed - stuck
    requires b.dirty <= (a.dirty + stale) - uncleaned
    requires uncleaned <= a.dirty
    ensures 2 * |b.unfinished| + |b.unprocessed| + |b.dirty| <=
              2 * |a.unfinished| + |a.unprocessed| + |a.dirty| - |stale| - |stuck| - |uncleaned|
  {
    Subtract(a.unfinished, stale);
    Subtract(a.unprocessed, stuck);
    Subtract(a.dirty + stale, uncleaned);
    Subtract((a.dirty + stale) - uncleaned, b.dirty);
    assert |a.dirty + stale| <= |a.dirty| + |stale|;
  }

  /** No upload is under way, none waits for its processing, and no files wait to be removed. */
  predicate NothingLeft(rows: Rows) {
    forall id :: id in rows ==>
      && (rows[id].deletedAt.None? ==>
            rows[id].upload != Uploading && !(rows[id].upload == Uploaded && rows[id].processing == Pending))
      && (rows[id].deletedAt.Some? || rows[id].upload == UploadFailed ==> rows[id].filesRemovedAt.Some?)
  }

  lemma NothingLeftExactly(rows: Rows)
    ensures Rank(rows) == 0 <==> NothingLeft(rows)
  {
    if Rank(rows) == 0 {
      assert Unfinished(rows) == {} && Unprocessed(rows) == {} && Dirty(rows) == {};
      forall id | id in rows
        ensures rows[id].Live() ==>
                  rows[id].upload != Uploading && !(rows[id].upload == Uploaded && rows[id].processing == Pending)
        ensures rows[id].Closed() ==> rows[id].filesRemovedAt.Some?
      {
        assert id !in Unfinished(rows) && id !in Unprocessed(rows) && id !in Dirty(rows);
      }
    }
    if NothingLeft(rows) {
      assert Unfinished(rows) == {} && Unprocessed(rows) == {} && Dirty(rows) == {};
    }
  }

  lemma SomethingIsDue(rows: Rows, before: nat)
    requires AllOld(rows, before) && Rank(rows) > 0
    ensures |StaleIds(rows, before)| > 0 || |StuckIds(rows, before)| > 0 || |UncleanedIds(rows, before)| > 0
  {
    assert StaleIds(rows, before) == Unfinished(rows);
    assert StuckIds(rows, before) == Unprocessed(rows);
    assert UncleanedIds(rows, before) == Dirty(rows);
  }
}
