/** The sales dashboard: the kanban board of leads by status, the
    "advance" button on each card, the status buttons of the detail view,
    and the counters above the board.

    The board's state is the list of leads it fetched and the lead open in
    the detail view. A status change writes to the table first; the result
    of that write is an input. */
module Dashboard {

  import opened Wrappers
  import opened Seqs
  import opened Leads

  /** The keys of the status table, in declaration order: the buttons of
      the detail view. */
  const Statuses: seq<string> := ["nouveau", "inspection", "soumission", "gagne", "perdu"]

  /** The board's columns, left to right. `perdu` has no column. */
  const KanbanColumns: seq<string> := ["nouveau", "inspection", "soumission", "gagne"]

  /** Every status of the detail view has a column except `perdu`, and
      every column is a status. */
  lemma ColumnsAreStatusesButLost()
    ensures forall s :: s in KanbanColumns ==> s in Statuses
    ensures forall s :: s in Statuses ==> (s in KanbanColumns <==> s != "perdu")
  {
  }

  /** `s.indexOf(x)`: the first position of `x`, or -1. */
  function IndexOf(s: seq<string>, x: string): (i: int)
    ensures -1 <= i < |s|
    ensures i == -1 <==> x !in s
    ensures i >= 0 ==> s[i] == x && x !in s[..i]
    decreases |s|
  {
    if |s| == 0 then -1
    else if s[0] == x then 0
    else
      var j := IndexOf(s[1..], x);
      assert j >= 0 ==> s[..j + 1] == [s[0]] + s[1..][..j];
      if j == -1 then -1 else j + 1
  }

  /** `kanbanColumns[kanbanColumns.indexOf(status) + 1]`, where reading
      past the end gives `undefined`. */
  function NextColumn(status: string): (next: Option<string>)
    ensures next.Some? ==> next.value in KanbanColumns
    ensures next.None? <==> status == "gagne"
  {
    var i := IndexOf(KanbanColumns, status) + 1;
    if i < |KanbanColumns| then Some(KanbanColumns[i]) else None
  }

  /** The target of the advance button on a card of column `column`; the
      button is not drawn in the `gagne` column. */
  function Advance(column: string): (next: Option<string>)
    ensures column in KanbanColumns ==> (next.None? <==> column == "gagne")
    ensures column in KanbanColumns && next.Some? ==>
              next.value in KanbanColumns
              && IndexOf(KanbanColumns, next.value) == IndexOf(KanbanColumns, column) + 1
    ensures column !in KanbanColumns ==> next == Some("nouveau")
  {
    if column == "gagne" then None else NextColumn(column)
  }

  /** The advance buttons walk the columns in order and stop at `gagne`. */
  lemma AdvanceChain()
    ensures Advance("nouveau") == Some("inspection")
    ensures Advance("inspection") == Some("soumission")
    ensures Advance("soumission") == Some("gagne")
    ensures Advance("gagne") == None
  {
    assert KanbanColumns[1] == "inspection";
    assert KanbanColumns[2] == "soumission";
    assert KanbanColumns[3] == "gagne";
  }

  // ---------------------------------------------------------------------
  // Status updates

  /** `updateLeadStatus`: the write comes first; when it fails the list is
      left alone, otherwise the lead with that id gets the new status. */
  function UpdateLeadStatus(leads: seq<Lead>, id: string, newStatus: string, writeFails: bool): (r: seq<Lead>)
    ensures |r| == |leads|
    ensures writeFails ==> r == leads
    ensures forall k :: 0 <= k < |leads| ==> r[k].(status := leads[k].status) == leads[k]
    ensures forall k :: 0 <= k < |leads| && leads[k].id != id ==> r[k] == leads[k]
    ensures !writeFails ==> forall k :: 0 <= k < |leads| && leads[k].id == id ==> r[k].status == newStatus
  {
    if writeFails then leads else UpdateWhere(leads, id, (l: Lead) => l.(status := newStatus))
  }

  /** The board's state: the fetched leads and the lead in the detail view. */
  datatype Board = Board(leads: seq<Lead>, selected: Option<Lead>)

  /** A click on the advance button of a card in column `column`. */
  function ClickAdvance(b: Board, column: string, lead: Lead, writeFails: bool): (r: Board)
    ensures r.selected == b.selected
    ensures Advance(column).None? || writeFails ==> r == b
    ensures Advance(column).Some? ==> r.leads == UpdateLeadStatus(b.leads, lead.id, Advance(column).value, writeFails)
  {
    match Advance(column)
    case None => b
    case Some(next) => b.(leads := UpdateLeadStatus(b.leads, lead.id, next, writeFails))
  }

  /** A click on a status button of the open detail view: the write, then
      the view shows the new status whether the write failed or not. */
  function ChooseStatus(b: Board, status: string, writeFails: bool): (r: Board)
    requires b.selected.Some?
    ensures r.selected == Some(b.selected.value.(status := status))
    ensures r.leads == UpdateLeadStatus(b.leads, b.selected.value.id, status, writeFails)
  {
    var open := b.selected.value;
    Board(UpdateLeadStatus(b.leads, open.id, status, writeFails), Some(open.(status := status)))
  }

  /** The detail view can move a listed lead to any of the five statuses,
      from any status, `perdu` included: nothing orders them. After a
      successful write the list and the view agree. */
  lemma AnyStatusFromDetailView(b: Board, k: nat, status: string)
    requires k < |b.leads| && b.selected == Some(b.leads[k])
    ensures ChooseStatus(b, status, false).leads[k].status == status
    ensures ChooseStatus(b, status, false).leads[k] == ChooseStatus(b, status, false).selected.value
  {
  }

  /** When the write fails the view still shows the chosen status while
      the list keeps the old one. */
  lemma FailedWriteDesynchronizesView(b: Board, k: nat, status: string)
    requires k < |b.leads| && b.selected == Some(b.leads[k]) && b.leads[k].status != status
    ensures ChooseStatus(b, status, true).selected.value.status == status
    ensures ChooseStatus(b, status, true).leads[k].status != status
  {
  }

  /** The detail view as it should behave: it follows the list, showing
      the new status only once the write has succeeded. */
  function ChooseStatusConfirmed(b: Board, status: string, writeFails: bool): (r: Board)
    requires b.selected.Some?
    ensures r.leads == UpdateLeadStatus(b.leads, b.selected.value.id, status, writeFails)
    ensures writeFails ==> r == b
  {
    if writeFails then b else ChooseStatus(b, status, false)
  }

  /** With the confirmed update the view always shows the lead as listed. */
  lemma ConfirmedViewMatchesList(b: Board, k: nat, status: string, writeFails: bool)
    requires k < |b.leads| && b.selected == Some(b.leads[k])
    ensures var r := ChooseStatusConfirmed(b, status, writeFails);
            r.selected == Some(r.leads[k])
  {
    if !writeFails {
      AnyStatusFromDetailView(b, k, status);
    }
  }

  // ---------------------------------------------------------------------
  // Columns

  /** `getLeadsByStatus`. */
  function LeadsByStatus(leads: seq<Lead>, status: string): (r: seq<Lead>)
    ensures forall l :: l in r <==> l in leads && l.status == status
    ensures |r| <= |leads|
  {
    Filter(leads, (l: Lead) => l.status == status)
  }

  /** A column lists its leads in the order of the fetched list: leads
      from an earlier part of the list come first. */
  lemma ColumnKeepsOrder(a: seq<Lead>, b: seq<Lead>, status: string)
    ensures LeadsByStatus(a + b, status) == LeadsByStatus(a, status) + LeadsByStatus(b, status)
  {
    FilterAppend(a, b, (l: Lead) => l.status == status);
  }

  /** A lost lead is in no column, so the board never shows it. */
  lemma LostLeadsNotOnBoard(leads: seq<Lead>, l: Lead)
    requires l.status == "perdu"
    ensures forall column :: column in KanbanColumns ==> l !in LeadsByStatus(leads, column)
  {
  }

  /** Every listed lead whose status is a column is in exactly that column. */
  lemma ColumnsPartitionBoard(leads: seq<Lead>, l: Lead)
    requires l in leads && l.status in KanbanColumns
    ensures forall column :: column in KanbanColumns ==> (l in LeadsByStatus(leads, column) <==> column == l.status)
  {
  }

  // ---------------------------------------------------------------------
  // Counters

  predicate IsNew(l: Lead) { l.status == "nouveau" }

  /** `["inspection", "soumission"].includes(l.status)`. */
  predicate IsInProgress(l: Lead) { l.status in ["inspection", "soumission"] }

  predicate IsWon(l: Lead) { l.status == "gagne" }

  /** Won with a truthy `estimate_mid`: the leads `totalEstimate` adds up. */
  predicate CountsTowardTotal(l: Lead) {
    l.status == "gagne" && l.estimateMid.Some? && l.estimateMid.value != 0
  }

  /** `l.estimate_mid || 0`. */
  function MidOrZero(l: Lead): (m: int)
    ensures l.estimateMid.None? ==> m == 0
    ensures l.estimateMid.Some? ==> m == l.estimateMid.value
  {
    if l.estimateMid.Some? then l.estimateMid.value else 0
  }

  /** `reduce((sum, l) => sum + (l.estimate_mid || 0), 0)`. */
  function SumMids(s: seq<Lead>): int
    decreases |s|
  {
    if |s| == 0 then 0 else MidOrZero(s[0]) + SumMids(s[1..])
  }

  /** The four counters above the board. */
  datatype Stats = Stats(total: nat, newLeads: nat, inProgress: nat, won: nat, totalEstimate: int)

  /** The three status counters count disjoint sets of leads, so together
      they never exceed the total. */
  lemma {:induction false} CountersDisjoint(leads: seq<Lead>)
    ensures Count(leads, IsNew) + Count(leads, IsInProgress) + Count(leads, IsWon) <= |leads|
    decreases |leads|
  {
    if |leads| > 0 {
      CountersDisjoint(leads[1..]);
    }
  }

  /** The in-progress counter is the size of the `inspection` column plus
      the size of the `soumission` column. */
  lemma {:induction false} InProgressIsTwoColumns(leads: seq<Lead>)
    ensures Count(leads, IsInProgress)
              == |LeadsByStatus(leads, "inspection")| + |LeadsByStatus(leads, "soumission")|
    decreases |leads|
  {
    if |leads| > 0 {
      InProgressIsTwoColumns(leads[1..]);
      var inspection := (l: Lead) => l.status == "inspection";
      var quote := (l: Lead) => l.status == "soumission";
      assert LeadsByStatus(leads, "inspection") == Filter(leads, inspection);
      assert LeadsByStatus(leads[1..], "inspection") == Filter(leads[1..], inspection);
      assert LeadsByStatus(leads, "soumission") == Filter(leads, quote);
      assert LeadsByStatus(leads[1..], "soumission") == Filter(leads[1..], quote);
    }
  }

  function ComputeStats(leads: seq<Lead>): (s: Stats)
    ensures s.total == |leads|
    ensures s.newLeads + s.inProgress + s.won <= s.total
    ensures s.won == |LeadsByStatus(leads, "gagne")| && s.newLeads == |LeadsByStatus(leads, "nouveau")|
    ensures s.inProgress == |LeadsByStatus(leads, "inspection")| + |LeadsByStatus(leads, "soumission")|
  {
    CountersDisjoint(leads);
    InProgressIsTwoColumns(leads);
    SameFilter(leads, IsWon, (l: Lead) => l.status == "gagne");
    SameFilter(leads, IsNew, (l: Lead) => l.status == "nouveau");
    Stats(|leads|, Count(leads, IsNew), Count(leads, IsInProgress), Count(leads, IsWon),
          SumMids(Filter(leads, CountsTowardTotal)))
  }

  /** Two predicates that agree on every element filter alike. */
  lemma {:induction false} SameFilter(s: seq<Lead>, p: Lead -> bool, q: Lead -> bool)
    requires forall l :: p(l) == q(l)
    ensures Filter(s, p) == Filter(s, q)
    decreases |s|
  {
    if |s| > 0 {
      SameFilter(s[1..], p, q);
    }
  }

  /** Dropping the won leads whose `estimate_mid` is `null` or 0 does not
      change the sum: `totalEstimate` is the sum of the middle prices in
      the `gagne` column, counting a missing one as 0. */
  lemma {:induction false} TotalIsWonColumnSum(leads: seq<Lead>)
    ensures ComputeStats(leads).totalEstimate == SumMids(LeadsByStatus(leads, "gagne"))
    decreases |leads|
  {
    if |leads| > 0 {
      TotalIsWonColumnSum(leads[1..]);
      var won := (l: Lead) => l.status == "gagne";
      assert LeadsByStatus(leads, "gagne") == Filter(leads, won);
      assert LeadsByStatus(leads[1..], "gagne") == Filter(leads[1..], won);
      if won(leads[0]) && !CountsTowardTotal(leads[0]) {
        assert MidOrZero(leads[0]) == 0;
        assert SumMids(Filter(leads, won)) == SumMids(Filter(leads[1..], won));
      }
    }
  }

  /** The total is never negative while no middle price is. */
  lemma TotalNonNegative(leads: seq<Lead>)
    requires forall k :: 0 <= k < |leads| ==> MidOrZero(leads[k]) >= 0
    ensures SumMids(leads) >= 0
    ensures ComputeStats(leads).totalEstimate >= 0
  {
    SumOfSubListNonNegative(leads, leads);
    SumOfSubListNonNegative(leads, Filter(leads, CountsTowardTotal));
  }

  /** Any list drawn from `leads` keeps the bound on its sum. */
  lemma {:induction false} SumOfSubListNonNegative(leads: seq<Lead>, kept: seq<Lead>)
    requires forall k :: 0 <= k < |leads| ==> MidOrZero(leads[k]) >= 0
    requires forall l :: l in kept ==> l in leads
    ensures SumMids(kept) >= 0
    decreases |kept|
  {
    if |kept| > 0 {
      assert kept[0] in kept;
      assert forall l :: l in kept[1..] ==> l in kept;
      SumOfSubListNonNegative(leads, kept[1..]);
    }
  }
}
