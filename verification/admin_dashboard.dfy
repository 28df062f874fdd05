/**
 * The admin dashboard: the status filter over the fetched list, the three
 * filter buttons, the seed-on-empty start-up, and the status selector.
 * Each poll replaces the fetched list with a fresh `getAll` result.
 */
module AdminDashboard {
  import opened Wrappers
  import opened Seqs
  import opened Entities
  import opened Api

  /** The filter buttons; no button selects `completed` or `cancelled`. */
  datatype FilterButton = AllButton | PendingButton | InProgressButton

  function FilterValue(b: FilterButton): string {
    match b
    case AllButton => "all"
    case PendingButton => "pending"
    case InProgressButton => "in_progress"
  }

  /** The filter test: `filter === 'all' || r.status === filter`. */
  predicate Matches(filter: string, r: RepairRequest) {
    filter == "all" || StatusName(r.status) == filter
  }

  /** The cards shown for the fetched `requests` under `filter`. */
  function Displayed(requests: seq<RepairRequest>, filter: string): (shown: seq<RepairRequest>)
    ensures filter == "all" ==> shown == requests
    ensures filter != "all" ==> forall x :: x in shown ==> StatusName(x.status) == filter
    ensures forall x :: x in requests && Matches(filter, x) ==> x in shown
    ensures forall x {:trigger multiset(shown)[x]} :: Matches(filter, x) ==> multiset(shown)[x] == multiset(requests)[x]
    ensures IsSubseq(shown, requests)
  {
    var shown := Keep(requests, (r: RepairRequest) => Matches(filter, r));
    assert filter == "all" ==> shown == requests by {
      if filter == "all" {
        KeepAll(requests, (r: RepairRequest) => Matches(filter, r));
      }
    }
    shown
  }

  /** Under any button but "all", completed and cancelled tickets are hidden. */
  lemma FinishedTicketsOnlyUnderAll(requests: seq<RepairRequest>, b: FilterButton, r: RepairRequest)
    requires r in Displayed(requests, FilterValue(b))
    requires r.status == Completed || r.status == Cancelled
    ensures b == AllButton
  {
  }

  /** The table after start-up, and the list the dashboard then shows. */
  datatype Loaded = Loaded(rows: seq<RepairRequest>, requests: seq<RepairRequest>)

  /**
   * Start-up: fetch everything; if that came back empty, call `seed`; then
   * fetch again and show the result. Each remote call has its own success flag.
   */
  function Init(client: bool, firstOk: bool, countOk: bool, insertOk: bool, secondOk: bool,
                rows: seq<RepairRequest>, firstMs: int, secondMs: int, iso: int -> string): (l: Loaded)
    ensures |GetAll(client, firstOk, rows)| > 0 ==> l.rows == rows
    ensures l.rows != rows ==> |GetAll(client, firstOk, rows)| == 0 && |rows| == 0 && l.rows == SampleRows(firstMs, secondMs, iso)
    ensures l.requests == GetAll(client, secondOk, l.rows)
  {
    var first := GetAll(client, firstOk, rows);
    var after := if |first| == 0 then Seed(client, countOk, insertOk, rows, firstMs, secondMs, iso) else rows;
    Loaded(after, GetAll(client, secondOk, after))
  }

  /** A failed first fetch still calls `seed`, whose row count keeps a non-empty table intact. */
  lemma InitNeverSeedsNonEmptyTable(client: bool, firstOk: bool, countOk: bool, insertOk: bool, secondOk: bool,
                                    rows: seq<RepairRequest>, firstMs: int, secondMs: int, iso: int -> string)
    requires |rows| > 0
    ensures Init(client, firstOk, countOk, insertOk, secondOk, rows, firstMs, secondMs, iso).rows == rows
  {
  }

  /** On an empty table with every call succeeding, the dashboard shows both sample rows. */
  lemma InitOnEmptyTableShowsSamples(firstMs: int, secondMs: int, iso: int -> string)
    ensures var l := Init(true, true, true, true, true, [], firstMs, secondMs, iso);
      l.rows == SampleRows(firstMs, secondMs, iso) && multiset(l.requests) == multiset(SampleRows(firstMs, secondMs, iso))
  {
  }

  /**
   * The status selector: `updateStatus` with the chosen option, then a
   * refetch. The options are the four status names, so the cast succeeds.
   */
  function ChangeStatus(client: bool, updateOk: bool, fetchOk: bool, rows: seq<RepairRequest>,
                        id: string, chosen: string): (l: Loaded)
    requires ParseStatus(chosen).Some?
    ensures |l.rows| == |rows|
    ensures forall i :: 0 <= i < |rows| && rows[i].id == id && client && updateOk ==> StatusName(l.rows[i].status) == chosen
    ensures forall i :: 0 <= i < |rows| ==> l.rows[i].(status := rows[i].status) == rows[i]
    ensures forall i :: 0 <= i < |rows| && (rows[i].id != id || !client || !updateOk) ==> l.rows[i] == rows[i]
    ensures l.requests == GetAll(client, fetchOk, l.rows)
  {
    var after := UpdateStatus(client, updateOk, rows, id, ParseStatus(chosen).value);
    Loaded(after, GetAll(client, fetchOk, after))
  }

  /** No transition graph: every status can be set from every status. */
  lemma AnyStatusReachable(rows: seq<RepairRequest>, i: nat, target: Status)
    requires i < |rows|
    ensures ChangeStatus(true, true, true, rows, rows[i].id, StatusName(target)).rows[i].status == target
  {
    StatusRoundTrip(target);
  }
}
