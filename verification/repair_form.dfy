/**
 * The repair form's state and handlers: the single-field change handler,
 * file selection, submission (attachment list, `create`, success modal or
 * alert) and closing the modal. The upload itself is a parameter: the URL
 * it returned, or None for no URL.
 */
module RepairForm {
  import opened Wrappers
  import opened Entities
  import opened Api

  /** The editable fields, with the values of the select boxes already typed. */
  datatype FormData = FormData(
    name: string,
    position: string,
    department: string,
    email: string,
    phone: string,
    problemType: ProblemType,
    problemDetail: string,
    location: string,
    priority: Priority)

  /** The `name` attribute of each input, i.e. the key `handleChange` writes. */
  datatype Key =
    | NameKey | PositionKey | DepartmentKey | EmailKey | PhoneKey
    | ProblemTypeKey | ProblemDetailKey | LocationKey | PriorityKey

  /** The value stored under `k`, as the string the input shows. */
  function Read(d: FormData, k: Key): string {
    match k
    case NameKey => d.name
    case PositionKey => d.position
    case DepartmentKey => d.department
    case EmailKey => d.email
    case PhoneKey => d.phone
    case ProblemTypeKey => ProblemTypeName(d.problemType)
    case ProblemDetailKey => d.problemDetail
    case LocationKey => d.location
    case PriorityKey => PriorityName(d.priority)
  }

  /** The two select boxes only offer their enumeration's names. */
  predicate Offered(k: Key, v: string) {
    && (k == ProblemTypeKey ==> ParseProblemType(v).Some?)
    && (k == PriorityKey ==> ParsePriority(v).Some?)
  }

  /** `handleChange`: `{ ...prev, [name]: value }`. */
  function HandleChange(d: FormData, k: Key, v: string): (r: FormData)
    requires Offered(k, v)
    ensures Read(r, k) == v
    ensures forall other :: other != k ==> Read(r, other) == Read(d, other)
  {
    match k
    case NameKey => d.(name := v)
    case PositionKey => d.(position := v)
    case DepartmentKey => d.(department := v)
    case EmailKey => d.(email := v)
    case PhoneKey => d.(phone := v)
    case ProblemTypeKey => d.(problemType := ParseProblemType(v).value)
    case ProblemDetailKey => d.(problemDetail := v)
    case LocationKey => d.(location := v)
    case PriorityKey => d.(priority := ParsePriority(v).value)
  }

  /** The defaults the form starts with and is reset to. */
  const InitialData: FormData := FormData("", "", "", "", "", Hardware, "", "", Low)

  /** A chosen file; only its identity matters here. */
  datatype FileRef = FileRef(name: string)

  datatype FormState = FormState(
    data: FormData,
    modalOpen: bool,
    requestId: string,
    selectedFile: Option<FileRef>,
    uploading: bool)

  const Initial: FormState := FormState(InitialData, false, "", None, false)

  /** `handleFileChange`: the first chosen file wins; an empty choice keeps the previous one. */
  function HandleFileChange(s: FormState, files: seq<FileRef>): (r: FormState)
    ensures |files| > 0 ==> r.selectedFile == Some(files[0])
    ensures |files| == 0 ==> r == s
    ensures r.(selectedFile := s.selectedFile) == s
  {
    if |files| > 0 then s.(selectedFile := Some(files[0])) else s
  }

  /**
   * The `attachments` sent with the request: the upload's URL when a file
   * was chosen and the upload returned a non-empty URL, otherwise nothing.
   */
  function Attachments(file: Option<FileRef>, uploaded: Option<string>): (a: seq<string>)
    ensures a == [] || (|a| == 1 && file.Some? && uploaded == Some(a[0]) && a[0] != "")
    ensures file.Some? && uploaded.Some? && uploaded.value != "" ==> a == [uploaded.value]
  {
    var url := if file.Some? && uploaded.Some? then uploaded.value else "";
    if url != "" then [url] else []
  }

  /** The request `r` carries the nine fields the user filled in. */
  predicate CarriesForm(r: RepairRequest, d: FormData) {
    && r.name == d.name && r.position == d.position && r.department == d.department
    && r.email == d.email && r.phone == d.phone && r.problemType == d.problemType
    && r.problemDetail == d.problemDetail && r.location == d.location && r.priority == d.priority
  }

  /** The object `handleSubmit` passes to `create`: the form's fields plus the attachments. */
  function DraftOf(d: FormData, attachments: seq<string>): (r: Draft)
    ensures r.name == d.name && r.position == d.position && r.department == d.department
    ensures r.email == d.email && r.phone == d.phone && r.problemType == d.problemType
    ensures r.problemDetail == d.problemDetail && r.location == d.location && r.priority == d.priority
    ensures r.id.None? && r.status.None? && r.createdAt.None? && r.technicianNote.None?
    ensures r.attachments == Some(attachments)
  {
    Draft(d.name, d.position, d.department, d.email, d.phone, d.problemType,
      d.problemDetail, Some(attachments), d.location, d.priority, None, None, None, None)
  }

  /** The form after `handleSubmit`, the table, and whether the failure alert was shown. */
  datatype Submitted = Submitted(form: FormState, rows: seq<RepairRequest>, alerted: bool)

  /**
   * `handleSubmit`: upload (if a file was chosen), `create`, clear the
   * uploading flag, then open the modal with the new id or show the alert.
   */
  function Submit(s: FormState, uploaded: Option<string>, client: bool, createOk: bool,
                  rows: seq<RepairRequest>, generatedId: string, now: string): (o: Submitted)
    ensures !o.form.uploading
    ensures o.form.data == s.data && o.form.selectedFile == s.selectedFile
    ensures client && createOk ==>
      && o.form.modalOpen && o.form.requestId == generatedId && !o.alerted
      && |o.rows| == |rows| + 1 && o.rows[..|rows|] == rows
      && o.rows[|rows|].id == o.form.requestId
      && o.rows[|rows|].attachments == Some(Attachments(s.selectedFile, uploaded))
      && o.rows[|rows|].status == Pending
      && CarriesForm(o.rows[|rows|], s.data)
      && o.rows[|rows|].technicianNote.None? && o.rows[|rows|].createdAt == now
    ensures !(client && createOk) ==>
      o.alerted && o.rows == rows && o.form.modalOpen == s.modalOpen && o.form.requestId == s.requestId
  {
    var draft := DraftOf(s.data, Attachments(s.selectedFile, uploaded));
    var c := Create(client, createOk, rows, draft, generatedId, now);
    var settled := s.(uploading := false);
    match c.record
    case Some(r) => Submitted(settled.(requestId := r.id, modalOpen := true), c.rows, false)
    case None => Submitted(settled, c.rows, true)
  }

  /** A failed or absent upload still submits the request, with no attachments. */
  lemma FailedUploadStillSubmits(s: FormState, rows: seq<RepairRequest>, generatedId: string, now: string)
    ensures var o := Submit(s, None, true, true, rows, generatedId, now);
      |o.rows| == |rows| + 1 && o.rows[|rows|].attachments == Some([]) && o.form.modalOpen
  {
  }

  /** `handleCloseModal`: close, restore the default fields, forget the file. */
  function CloseModal(s: FormState): (r: FormState)
    ensures !r.modalOpen && r.data == InitialData && r.selectedFile.None?
    ensures r.requestId == s.requestId && r.uploading == s.uploading
  {
    s.(modalOpen := false, data := InitialData, selectedFile := None)
  }

  /** Every field reads as its default after closing the modal: empty text, `hardware`, `low`. */
  lemma CloseModalRestoresDefaults(s: FormState, k: Key)
    ensures Read(CloseModal(s).data, k) == (if k == ProblemTypeKey then "hardware" else if k == PriorityKey then "low" else "")
  {
  }

  /** Submitting, succeeding and closing the modal leaves a fresh form that only remembers the last id. */
  lemma SubmitThenCloseIsFresh(s: FormState, uploaded: Option<string>, rows: seq<RepairRequest>, generatedId: string, now: string)
    ensures CloseModal(Submit(s, uploaded, true, true, rows, generatedId, now).form) == Initial.(requestId := generatedId)
  {
  }
}
