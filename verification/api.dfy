/**
 * The `api` object over an in-memory `repair_requests` table. The table is a
 * sequence of rows in insertion order. Every operation takes `client` (a
 * configured backend client exists) and one flag per remote call saying
 * whether that call succeeded; a failed call is caught and turned into the
 * operation's failure value, and the table is left as it was.
 */
module Api {
  import opened Wrappers
  import opened Text
  import opened Seqs
  import opened Entities

  // ---------------------------------------------------------------- ordering

  /** Rows are in non-increasing `createdAt` order (newest first). */
  predicate NewestFirst(rows: seq<RepairRequest>) {
    forall i, j :: 0 <= i < j < |rows| ==> AtMost(rows[j].createdAt, rows[i].createdAt)
  }

  lemma PrependNewest(r: RepairRequest, rows: seq<RepairRequest>)
    requires NewestFirst(rows)
    requires forall x :: x in rows ==> AtMost(x.createdAt, r.createdAt)
    ensures NewestFirst([r] + rows)
  {
    var out := [r] + rows;
    forall i, j | 0 <= i < j < |out|
      ensures AtMost(out[j].createdAt, out[i].createdAt)
    {
      if i == 0 {
        assert out[j] in rows;
      } else {
        assert out[i] == rows[i - 1] && out[j] == rows[j - 1];
      }
    }
  }

  /** Places `r` before the first row that is not newer than it. */
  function InsertByCreatedAt(r: RepairRequest, sorted: seq<RepairRequest>): (out: seq<RepairRequest>)
    requires NewestFirst(sorted)
    ensures NewestFirst(out)
    ensures multiset(out) == multiset(sorted) + multiset{r}
  {
    if sorted == [] || AtMost(sorted[0].createdAt, r.createdAt) then
      assert forall x :: x in sorted ==> AtMost(x.createdAt, r.createdAt) by {
        forall x | x in sorted
          ensures AtMost(x.createdAt, r.createdAt)
        {
          var k :| 0 <= k < |sorted| && sorted[k] == x;
          if k > 0 {
            AtMostTransitive(x.createdAt, sorted[0].createdAt, r.createdAt);
          }
        }
      }
      PrependNewest(r, sorted);
      [r] + sorted
    else
      var head, rest := sorted[0], InsertByCreatedAt(r, sorted[1..]);
      assert sorted == [head] + sorted[1..];
      assert forall x :: x in rest ==> AtMost(x.createdAt, head.createdAt) by {
        forall x | x in rest
          ensures AtMost(x.createdAt, head.createdAt)
        {
          assert x in multiset(rest);
          if x == r {
            AtMostTotal(r.createdAt, head.createdAt);
          } else {
            assert x in multiset(sorted[1..]);
            var k :| 0 <= k < |sorted[1..]| && sorted[1..][k] == x;
            assert sorted[k + 1] == x;
          }
        }
      }
      PrependNewest(head, rest);
      [head] + rest
  }

  /** The rows reordered newest first; rows with equal `createdAt` keep table order. */
  function SortNewestFirst(rows: seq<RepairRequest>): (out: seq<RepairRequest>)
    ensures NewestFirst(out)
    ensures multiset(out) == multiset(rows)
    ensures |out| == |rows|
  {
    if rows == [] then []
    else
      assert rows == [rows[0]] + rows[1..];
      InsertByCreatedAt(rows[0], SortNewestFirst(rows[1..]))
  }

  // ---------------------------------------------------------------- reads

  /**
   * `getAll`: every row, newest first; `[]` with no client or when the
   * select fails.
   */
  function GetAll(client: bool, ok: bool, rows: seq<RepairRequest>): (r: seq<RepairRequest>)
    ensures !client || !ok ==> r == []
    ensures client && ok ==> NewestFirst(r) && multiset(r) == multiset(rows)
  {
    if client && ok then SortNewestFirst(rows) else []
  }

  /** The rows whose `id` equals `id`, in table order (the `.eq('id', id)` filter). */
  function WithId(rows: seq<RepairRequest>, id: string): (r: seq<RepairRequest>)
    ensures forall x :: x in r <==> x in rows && x.id == id
  {
    Keep(rows, (x: RepairRequest) => x.id == id)
  }

  /**
   * `getById`: `.single()` yields a row only when exactly one row matches;
   * no client, a failed select, no match or several matches give `undefined`.
   */
  function GetById(client: bool, ok: bool, rows: seq<RepairRequest>, id: string): (r: Option<RepairRequest>)
    ensures r.Some? ==> r.value in rows && r.value.id == id
    ensures r.Some? <==> client && ok && |WithId(rows, id)| == 1
  {
    if !client || !ok then None
    else
      var matches := WithId(rows, id);
      if |matches| == 1 then
        assert matches[0] in matches;
        Some(matches[0])
      else None
  }

  // ---------------------------------------------------------------- create

  /**
   * The object handed to `create`. Its static type omits `id`, `createdAt`
   * and `status`, but the spread copies whatever keys the runtime object
   * holds, so stray `id` and `status` values are represented too; `createdAt`
   * may be supplied.
   */
  datatype Draft = Draft(
    name: string,
    position: string,
    department: string,
    email: string,
    phone: string,
    problemType: ProblemType,
    problemDetail: string,
    attachments: Option<seq<string>>,
    location: string,
    priority: Priority,
    technicianNote: Option<string>,
    createdAt: Option<string>,
    id: Option<string>,
    status: Option<Status>)

  /** The requester-supplied fields of `r` are those of `d`. */
  predicate CopiedFrom(r: RepairRequest, d: Draft) {
    && r.name == d.name && r.position == d.position && r.department == d.department
    && r.email == d.email && r.phone == d.phone && r.problemType == d.problemType
    && r.problemDetail == d.problemDetail && r.attachments == d.attachments
    && r.location == d.location && r.priority == d.priority
    && r.technicianNote == d.technicianNote
  }

  /** `data.createdAt || now`: a supplied non-empty timestamp wins, otherwise the clock. */
  function CreatedAtOf(d: Draft, now: string): string {
    if d.createdAt.Some? && d.createdAt.value != "" then d.createdAt.value else now
  }

  /** The row `create` builds: the spread of `d`, then the generated id, the timestamp and `pending`. */
  function NewRecord(d: Draft, generatedId: string, now: string): RepairRequest {
    RepairRequest(generatedId, d.name, d.position, d.department, d.email, d.phone,
      d.problemType, d.problemDetail, d.attachments, d.location, Pending, d.priority,
      d.technicianNote, CreatedAtOf(d, now))
  }

  /** The table after `create` and what `create` returned (`null` as None). */
  datatype Created = Created(rows: seq<RepairRequest>, record: Option<RepairRequest>)

  /**
   * `create`: with a client and a successful insert, appends the new row and
   * returns it; otherwise returns `null` and leaves the table alone. The
   * generated id and the clock reading are parameters.
   */
  function Create(client: bool, ok: bool, rows: seq<RepairRequest>, d: Draft, generatedId: string, now: string): (c: Created)
    ensures !(client && ok) ==> c.rows == rows && c.record.None?
    ensures client && ok ==> c.record.Some? && c.rows == rows + [c.record.value]
    ensures c.record.Some? ==> c.record.value.id == generatedId && c.record.value.status == Pending
    ensures c.record.Some? ==> c.record.value.createdAt == CreatedAtOf(d, now) && CopiedFrom(c.record.value, d)
  {
    if client && ok then
      var r := NewRecord(d, generatedId, now);
      Created(rows + [r], Some(r))
    else
      Created(rows, None)
  }

  /** Whatever `id` and `status` the caller's object carries, the created row is the same. */
  lemma CreateIgnoresCallerIdAndStatus(client: bool, ok: bool, rows: seq<RepairRequest>, d1: Draft, d2: Draft, generatedId: string, now: string)
    requires d1.(id := None, status := None) == d2.(id := None, status := None)
    ensures Create(client, ok, rows, d1, generatedId, now) == Create(client, ok, rows, d2, generatedId, now)
  {
    assert d1.createdAt == d2.createdAt;
  }

  /** A created row keeps a supplied non-empty `createdAt`, and otherwise takes the clock reading. */
  lemma CreatedAtKeptOrNow(rows: seq<RepairRequest>, d: Draft, generatedId: string, now: string)
    ensures var c := Create(true, true, rows, d, generatedId, now);
      && (d.createdAt.Some? && d.createdAt.value != "" ==> c.record.value.createdAt == d.createdAt.value)
      && (d.createdAt.None? || d.createdAt.value == "" ==> c.record.value.createdAt == now)
  {
  }

  // ---------------------------------------------------------------- updates

  /** The partial row written by `.update(...)`. */
  datatype Patch = SetStatus(status: Status) | SetNote(note: string)

  function Apply(r: RepairRequest, p: Patch): RepairRequest {
    match p
    case SetStatus(s) => r.(status := s)
    case SetNote(n) => r.(technicianNote := Some(n))
  }

  /** `.update(p).eq('id', id)`: patches every row with that id, in place. */
  function UpdateWhereId(rows: seq<RepairRequest>, id: string, p: Patch): (out: seq<RepairRequest>)
    ensures |out| == |rows|
    ensures forall i :: 0 <= i < |rows| && rows[i].id == id ==> out[i] == Apply(rows[i], p)
    ensures forall i :: 0 <= i < |rows| && rows[i].id != id ==> out[i] == rows[i]
  {
    if rows == [] then []
    else
      var head := if rows[0].id == id then Apply(rows[0], p) else rows[0];
      [head] + UpdateWhereId(rows[1..], id, p)
  }

  /**
   * `updateStatus`: sets `status` on the rows with that id, from any status
   * to any status; with no client or a failed update the table is unchanged.
   */
  function UpdateStatus(client: bool, ok: bool, rows: seq<RepairRequest>, id: string, s: Status): (out: seq<RepairRequest>)
    ensures |out| == |rows|
    ensures forall i :: 0 <= i < |rows| ==> out[i].(status := rows[i].status) == rows[i]
    ensures forall i :: 0 <= i < |rows| && rows[i].id == id && client && ok ==> out[i].status == s
    ensures forall i :: 0 <= i < |rows| && (rows[i].id != id || !client || !ok) ==> out[i] == rows[i]
  {
    if client && ok then UpdateWhereId(rows, id, SetStatus(s)) else rows
  }

  /**
   * `updateNote`: overwrites `technicianNote` on the rows with that id; with
   * no client or a failed update the table is unchanged.
   */
  function UpdateNote(client: bool, ok: bool, rows: seq<RepairRequest>, id: string, note: string): (out: seq<RepairRequest>)
    ensures |out| == |rows|
    ensures forall i :: 0 <= i < |rows| ==> out[i].(technicianNote := rows[i].technicianNote) == rows[i]
    ensures forall i :: 0 <= i < |rows| && rows[i].id == id && client && ok ==> out[i].technicianNote == Some(note)
    ensures forall i :: 0 <= i < |rows| && (rows[i].id != id || !client || !ok) ==> out[i] == rows[i]
  {
    if client && ok then UpdateWhereId(rows, id, SetNote(note)) else rows
  }

  /** Setting the same status twice is the same as setting it once. */
  lemma UpdateStatusIdempotent(client: bool, ok1: bool, ok2: bool, rows: seq<RepairRequest>, id: string, s: Status)
    ensures var once := UpdateStatus(client, ok1, rows, id, s);
      ok1 ==> UpdateStatus(client, ok2, once, id, s) == once
  {
    var once := UpdateStatus(client, ok1, rows, id, s);
    if ok1 {
      var twice := UpdateStatus(client, ok2, once, id, s);
      assert forall i :: 0 <= i < |once| ==> twice[i] == once[i];
    }
  }

  /** Patching then selecting by id is selecting by id then patching. */
  lemma {:induction false} WithIdAfterUpdate(rows: seq<RepairRequest>, id: string, p: Patch)
    ensures WithId(UpdateWhereId(rows, id, p), id) == UpdateWhereId(WithId(rows, id), id, p)
  {
    if rows != [] {
      WithIdAfterUpdate(rows[1..], id, p);
      var out := UpdateWhereId(rows, id, p);
      assert out[1..] == UpdateWhereId(rows[1..], id, p);
      assert out[0].id == rows[0].id;
    }
  }

  /** After `updateNote` on a unique id, `getById` returns the row carrying the new note. */
  lemma NoteVisibleToGetById(rows: seq<RepairRequest>, id: string, note: string)
    requires |WithId(rows, id)| == 1
    ensures var r := GetById(true, true, UpdateNote(true, true, rows, id, note), id);
      r.Some? && r.value.technicianNote == Some(note) && r.value.id == id
  {
    WithIdAfterUpdate(rows, id, SetNote(note));
  }

  // ---------------------------------------------------------------- seed

  /** One day in milliseconds, the age of the second sample row. */
  const DayMs: int := 86400000

  /**
   * The two demonstration rows. The source reads the clock twice: `new Date()`
   * for the first row (`firstMs`) and `Date.now()` for the second
   * (`secondMs`), which is dated one day before its reading. `iso` renders a
   * millisecond reading the way `toISOString` does.
   */
  function SampleRows(firstMs: int, secondMs: int, iso: int -> string): seq<RepairRequest> {
    [ RepairRequest("REQ82X91", "John Doe", "Software Engineer", "Development",
        "john.doe@company.com", "081-234-5678", Hardware,
        "Laptop screen flickers intermittently when moved.", None, "Office 304",
        Pending, High, None, iso(firstMs)),
      RepairRequest("REQ19Z22", "Jane Smith", "HR Manager", "Human Resources",
        "jane.smith@company.com", "089-876-5432", Software,
        "Unable to access the payroll system on the new workstation.", None,
        "Building A, 2nd Floor", InProgress, Medium, None, iso(secondMs - DayMs)) ]
  }

  /**
   * `seed`: counts the rows and, only when the count succeeded and is 0,
   * inserts the sample rows in one insert.
   */
  function Seed(client: bool, countOk: bool, insertOk: bool, rows: seq<RepairRequest>, firstMs: int, secondMs: int, iso: int -> string): (out: seq<RepairRequest>)
    ensures |rows| > 0 ==> out == rows
    ensures !client || !countOk || !insertOk ==> out == rows
    ensures client && countOk && insertOk && |rows| == 0 ==> |out| == 2 && out == SampleRows(firstMs, secondMs, iso)
  {
    if client && countOk && |rows| == 0 && insertOk then rows + SampleRows(firstMs, secondMs, iso) else rows
  }

  /** With no client, no operation changes the table, and reads return their failure values. */
  lemma NoClientNoEffect(ok: bool, countOk: bool, rows: seq<RepairRequest>, id: string, d: Draft, generatedId: string, now: string, s: Status, note: string, firstMs: int, secondMs: int, iso: int -> string)
    ensures GetAll(false, ok, rows) == []
    ensures GetById(false, ok, rows, id).None?
    ensures Create(false, ok, rows, d, generatedId, now) == Created(rows, None)
    ensures UpdateStatus(false, ok, rows, id, s) == rows
    ensures UpdateNote(false, ok, rows, id, note) == rows
    ensures Seed(false, countOk, ok, rows, firstMs, secondMs, iso) == rows
  {
  }

  /** A row created strictly later than every existing row is listed first by `getAll`. */
  lemma CreatedNewestListedFirst(rows: seq<RepairRequest>, d: Draft, generatedId: string, now: string)
    requires forall x :: x in rows ==> AtMost(x.createdAt, CreatedAtOf(d, now)) && x.createdAt != CreatedAtOf(d, now)
    ensures var c := Create(true, true, rows, d, generatedId, now);
      var listed := GetAll(true, true, c.rows);
      |listed| > 0 && listed[0] == c.record.value
  {
    var c := Create(true, true, rows, d, generatedId, now);
    var r := c.record.value;
    var listed := GetAll(true, true, c.rows);
    assert r in multiset(c.rows);
    assert r in multiset(listed);
    var k :| 0 <= k < |listed| && listed[k] == r;
    assert listed[0] in multiset(c.rows);
    if listed[0] != r {
      assert listed[0] in multiset(rows) by {
        assert multiset(c.rows) == multiset(rows) + multiset{r};
      }
      assert AtMost(r.createdAt, listed[0].createdAt);
      AtMostAntisymmetric(r.createdAt, listed[0].createdAt);
      assert false;
    }
  }
}
