/** The `leads` table as the edge functions and the dashboard see it: one
    record per form submission, the `.eq("id", …).single()` lookup, and the
    update of every row with a given id. */
module Leads {

  import opened Wrappers
  import opened Seqs
  import opened RoofAnalysis

  /** One row of `leads`. Nullable columns are `Option`s; the text columns
      the form always fills are plain strings. */
  datatype Lead = Lead(
    id: string,
    fullName: string,
    phone: string,
    email: string,
    address: string,
    propertyType: Option<string>,
    projectType: string,
    roofType: Option<string>,
    roofAge: Option<string>,
    accessDifficulty: Option<string>,
    roofIssues: seq<string>,
    photos: Option<seq<string>>,
    aiAnalysis: Option<Analysis>,
    estimateLow: Option<int>,
    estimateMid: Option<int>,
    estimateHigh: Option<int>,
    estimateTimeline: Option<string>,
    confidenceScore: Option<real>,
    status: string)

  /** The table, in the order the query returns it. */
  type Store = seq<Lead>

  /** `lead.photos && lead.photos.length > 0`. */
  predicate HasPhotos(l: Lead) {
    l.photos.Some? && |l.photos.value| > 0
  }

  /** The rows `.eq("id", id)` selects, in table order. */
  function Matching(store: Store, id: string): (rows: seq<Lead>)
    ensures forall l :: l in rows <==> l in store && l.id == id
  {
    Filter(store, (l: Lead) => l.id == id)
  }

  /** `.single()`: the row when exactly one matches, an error otherwise. */
  function SelectSingle(store: Store, id: string): (r: Option<Lead>)
    ensures r.Some? <==> |Matching(store, id)| == 1
    ensures r.Some? ==> r.value in store && r.value.id == id
  {
    var rows := Matching(store, id);
    if |rows| == 1 then Some(rows[0]) else None
  }

  /** `id` is the primary key: no two rows share one. */
  predicate UniqueIds(store: Store) {
    forall i, j :: 0 <= i < j < |store| ==> store[i].id != store[j].id
  }

  /** No row carries `id`, so nothing matches. */
  lemma {:induction false} NoneMatching(store: Store, id: string)
    requires forall k :: 0 <= k < |store| ==> store[k].id != id
    ensures Matching(store, id) == []
    decreases |store|
  {
    if |store| > 0 {
      NoneMatching(store[1..], id);
    }
  }

  /** With unique ids, the row carrying `id` is the only match. */
  lemma {:induction false} UniqueMatch(store: Store, id: string, k: nat)
    requires UniqueIds(store) && k < |store| && store[k].id == id
    ensures Matching(store, id) == [store[k]]
    decreases k
  {
    var p := (l: Lead) => l.id == id;
    assert Matching(store, id) == Filter(store, p);
    if k == 0 {
      NoneMatching(store[1..], id);
    } else {
      assert store[0].id != id;
      assert UniqueIds(store[1..]);
      UniqueMatch(store[1..], id, k - 1);
    }
  }

  /** With unique ids, `.single()` finds a lead exactly when some row
      carries its id, and then finds that row. */
  lemma SelectSingleFinds(store: Store, id: string)
    requires UniqueIds(store)
    ensures SelectSingle(store, id).Some? <==> exists k :: 0 <= k < |store| && store[k].id == id
    ensures forall k :: 0 <= k < |store| && store[k].id == id ==> SelectSingle(store, id) == Some(store[k])
  {
    if k :| 0 <= k < |store| && store[k].id == id {
      UniqueMatch(store, id, k);
      forall j | 0 <= j < |store| && store[j].id == id
        ensures SelectSingle(store, id) == Some(store[j])
      {
        UniqueMatch(store, id, j);
      }
    } else {
      NoneMatching(store, id);
    }
  }

  /** `.update(…).eq("id", id)` on the table, and `prev.map(lead =>
      lead.id === id ? change(lead) : lead)` on the dashboard's list:
      every row carrying `id` is changed, the others are kept, and the
      order is kept. */
  function UpdateWhere(store: Store, id: string, change: Lead -> Lead): (r: Store)
    ensures |r| == |store|
    ensures forall k :: 0 <= k < |store| && store[k].id != id ==> r[k] == store[k]
    ensures forall k :: 0 <= k < |store| && store[k].id == id ==> r[k] == change(store[k])
    decreases |store|
  {
    if |store| == 0 then []
    else [if store[0].id == id then change(store[0]) else store[0]] + UpdateWhere(store[1..], id, change)
  }

  /** A change that keeps the id keeps every id in place, so the table
      stays keyed by id. */
  lemma UpdateKeepsIds(store: Store, id: string, change: Lead -> Lead)
    requires forall l :: change(l).id == l.id
    ensures forall k :: 0 <= k < |store| ==> UpdateWhere(store, id, change)[k].id == store[k].id
    ensures UniqueIds(store) ==> UniqueIds(UpdateWhere(store, id, change))
  {
  }

  /** Reading a lead back after an update: the updated lead under `id`,
      every other lead exactly as before. */
  lemma SelectAfterUpdate(store: Store, id: string, change: Lead -> Lead, other: string)
    requires UniqueIds(store)
    requires forall l :: change(l).id == l.id
    ensures var after := UpdateWhere(store, id, change);
            SelectSingle(after, other)
              == (if other == id && SelectSingle(store, other).Some?
                  then Some(change(SelectSingle(store, other).value))
                  else SelectSingle(store, other))
  {
    var after := UpdateWhere(store, id, change);
    UpdateKeepsIds(store, id, change);
    SelectSingleFinds(store, other);
    SelectSingleFinds(after, other);
    if k :| 0 <= k < |store| && store[k].id == other {
      assert after[k].id == other;
    } else {
      assert forall k :: 0 <= k < |after| ==> after[k].id != other;
    }
  }
}
