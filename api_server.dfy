/** The HTTP layer's own decisions: which file names a download accepts
    and with which media type, the table of background tasks and what a
    status query answers, and how a generation result becomes a response.
    Routing, CORS, the uuid and the clock are not modelled; the task id,
    the creation time and whether a file exists are given values. */
module ApiServer {
  import opened Wrappers
  import opened Text
  import ReportSystem

  // ---------------------------------------------------------------------
  // Downloads

  datatype Download =
    | Rejected(code: nat, detail: string)
    | Missing(code: nat, detail: string)
    | Served(path: string, filename: string, mediaType: string)

  /** Lines 209-210: a name with `..`, `/` or a backslash could leave the
      reports directory. */
  predicate Unsafe(filename: string) {
    Contains(filename, "..") || '/' in filename || '\\' in filename
  }

  /** Lines 218-223. */
  function MediaType(filename: string): string {
    if EndsWith(filename, ".pdf") then "application/pdf"
    else if EndsWith(filename, ".md") then "text/markdown"
    else "application/octet-stream"
  }

  /** `download_report`: 400 for an unsafe name, before any path is built;
      404 when `reports/<name>` does not exist; otherwise the file with the
      media type of its ending. */
  function DownloadReport(filename: string, present: string -> bool): (r: Download)
    ensures r.Rejected? <==> Unsafe(filename)
    ensures r.Rejected? ==> r.code == 400
    ensures r.Missing? <==> !Unsafe(filename) && !present("reports/" + filename)
    ensures r.Missing? ==> r.code == 404
    ensures r.Served? ==> r.path == "reports/" + filename && r.filename == filename && r.mediaType == MediaType(filename)
  {
    if Unsafe(filename) then Rejected(400, "无效的文件名")
    else
      var path := "reports/" + filename;
      if !present(path) then Missing(404, "文件不存在")
      else Served(path, filename, MediaType(filename))
  }

  /** A served file lies directly inside `reports`: its path has a single
      `/`, right after the directory, and no `..`. */
  lemma ServedInReports(filename: string, present: string -> bool)
    requires DownloadReport(filename, present).Served?
    ensures CountChar(DownloadReport(filename, present).path, '/') == 1
    ensures !Contains(DownloadReport(filename, present).path, "..")
  {
    var path := "reports/" + filename;
    assert DownloadReport(filename, present).path == path;
    assert "reports" + "/" + filename == path;
    ReportSystem.InDirectory(path, "reports", filename);
    NoDotsAfterDir(path, filename);
  }

  /** `reports/` followed by a name without `..` has no `..`. */
  lemma NoDotsAfterDir(path: string, filename: string)
    requires path == "reports/" + filename && !Contains(filename, "..")
    ensures !Contains(path, "..")
  {
    forall j | 0 <= j < 8
      ensures path[j] != '.'
    {
      assert path[j] == "reports/"[j];
    }
    if Contains(path, "..") {
      var i := ContainsWitness(path, "..");
      assert path[i..i + 2][0] == path[i];
      if i >= 8 {
        assert filename[i - 8..i - 8 + 2] == path[i..i + 2];
        ContainsAt(filename, "..", i - 8);
      }
    }
  }

  /** The three media types are chosen by disjoint endings. */
  lemma MediaTypeCases(filename: string)
    ensures MediaType(filename) == "application/pdf" <==> EndsWith(filename, ".pdf")
    ensures MediaType(filename) == "text/markdown" <==> EndsWith(filename, ".md")
  {
    if EndsWith(filename, ".md") {
      assert filename[|filename| - 2] == 'm';
    }
  }

  // ---------------------------------------------------------------------
  // Calling the report system

  /** What the call into `generate_report` gives: a result, or an
      exception's message. */
  type Outcome = ReportSystem.Outcome

  const KeywordError := "ValuationReportSystem.generate_report() got an unexpected keyword argument 'generate_pdf'"

  /** Lines 133-140 and 255-262 as written: `generate_report` takes no
      `generate_pdf` or `keep_markdown` parameter, so the call raises before
      anything runs. */
  function CallAsWritten(company: string): (o: Outcome)
  {
    ReportSystem.Raised(KeywordError)
  }

  /** The call as evidently intended: only the parameters `generate_report`
      takes, so the outcome is what it returns or raises. */
  function CallCorrected(outcome: Outcome): (o: Outcome)
    ensures o == outcome
  {
    outcome
  }

  datatype Response =
    | ReportResponse(company: string, report: Option<string>, metadata: ReportSystem.Metadata)
    | HttpError(code: nat, detail: string)

  const GenerateFailed := "报告生成失败"

  /** Lines 143-167: an error result becomes a 500 carrying its error; an
      exception becomes a 500 whose detail starts `报告生成失败: `; a result
      becomes the report response. */
  function RespondGenerate(outcome: Outcome): (r: Response)
    ensures r.HttpError? <==> outcome.Raised? || outcome.result.Failed?
    ensures r.HttpError? ==> r.code == 500
    ensures outcome.Returned? && outcome.result.Failed? ==> r.detail == outcome.result.error
    ensures outcome.Raised? ==> r.detail == GenerateFailed + ": " + outcome.message
    ensures r.ReportResponse? ==> r.company == outcome.result.company && r.report == outcome.result.report
                                  && r.metadata == outcome.result.metadata
  {
    match outcome
    case Raised(m) => HttpError(500, GenerateFailed + ": " + m)
    case Returned(g) =>
      if g.Failed? then HttpError(500, g.error) else ReportResponse(g.company, g.report, g.metadata)
  }

  /** As written, the endpoint answers every request with the same 500. */
  lemma GenerateAlwaysFails(company: string)
    ensures RespondGenerate(CallAsWritten(company)) == HttpError(500, GenerateFailed + ": " + KeywordError)
  {
  }

  /** With the corrected call, a generated report is answered with itself. */
  lemma GenerateCorrectedServes(g: ReportSystem.Generated)
    requires g.Generated?
    ensures RespondGenerate(CallCorrected(ReportSystem.Returned(g))) == ReportResponse(g.company, g.report, g.metadata)
  {
  }

  // ---------------------------------------------------------------------
  // Background tasks

  /** One entry of `task_status`. */
  datatype Task = Task(status: string, company: string, createdAt: string,
                       result: Option<ReportSystem.Generated>, error: Option<string>)

  /** Every entry is processing with neither result nor error, completed
      with a result, or failed with an error. */
  predicate WellFormed(t: Task) {
    (t.status == "processing" && t.result.None? && t.error.None?)
    || (t.status == "completed" && t.result.Some? && t.error.None?)
    || (t.status == "failed" && t.result.None? && t.error.Some?)
  }

  predicate AllWellFormed(tasks: map<string, Task>) {
    forall id :: id in tasks ==> WellFormed(tasks[id])
  }

  /** Lines 243-249: the entry a new task starts with. */
  function Submitted(tasks: map<string, Task>, id: string, company: string, createdAt: string): map<string, Task> {
    tasks[id := Task("processing", company, createdAt, None, None)]
  }

  /** Lines 253-266: the entry once the background call returned or raised. */
  function Finished(tasks: map<string, Task>, id: string, outcome: Outcome): map<string, Task>
    requires id in tasks
  {
    match outcome
    case Returned(g) => tasks[id := tasks[id].(status := "completed", result := Some(g))]
    case Raised(m) => tasks[id := tasks[id].(status := "failed", error := Some(m))]
  }

  datatype StatusReply =
    | NotFound(code: nat, detail: string)
    | Completed(taskId: string, result: Option<ReportSystem.Generated>)
    | FailedTask(taskId: string, error: Option<string>)
    | Processing(taskId: string, message: string)

  const InProgress := "报告生成中，请稍候..."

  /** Lines 282-304: 404 for an unknown id; otherwise the reply the status
      field selects, anything but completed or failed counting as
      processing. */
  function StatusOf(tasks: map<string, Task>, id: string): (r: StatusReply)
    ensures r.NotFound? <==> id !in tasks
    ensures r.NotFound? ==> r.code == 404
    ensures id in tasks && tasks[id].status == "completed" ==> r == Completed(id, tasks[id].result)
    ensures id in tasks && tasks[id].status == "failed" ==> r == FailedTask(id, tasks[id].error)
    ensures id in tasks && tasks[id].status != "completed" && tasks[id].status != "failed" ==> r == Processing(id, InProgress)
  {
    if id !in tasks then NotFound(404, "任务不存在")
    else if tasks[id].status == "completed" then Completed(id, tasks[id].result)
    else if tasks[id].status == "failed" then FailedTask(id, tasks[id].error)
    else Processing(id, InProgress)
  }

  /** A new task is reported as processing. */
  lemma SubmittedProcessing(tasks: map<string, Task>, id: string, company: string, createdAt: string)
    ensures StatusOf(Submitted(tasks, id, company, createdAt), id) == Processing(id, InProgress)
    ensures AllWellFormed(tasks) ==> AllWellFormed(Submitted(tasks, id, company, createdAt))
  {
  }

  /** A processing task that finishes is reported with its result or its
      error, and stays well formed; no other task changes. */
  lemma FinishedReply(tasks: map<string, Task>, id: string, outcome: Outcome, other: string)
    requires id in tasks && tasks[id].status == "processing" && WellFormed(tasks[id])
    ensures outcome.Returned? ==> StatusOf(Finished(tasks, id, outcome), id) == Completed(id, Some(outcome.result))
    ensures outcome.Raised? ==> StatusOf(Finished(tasks, id, outcome), id) == FailedTask(id, Some(outcome.message))
    ensures WellFormed(Finished(tasks, id, outcome)[id])
    ensures other != id ==> StatusOf(Finished(tasks, id, outcome), other) == StatusOf(tasks, other)
  {
  }

  /** As written, every background task ends as failed with the keyword
      error. */
  lemma AsyncAlwaysFails(tasks: map<string, Task>, id: string, company: string, createdAt: string)
    ensures StatusOf(Finished(Submitted(tasks, id, company, createdAt), id, CallAsWritten(company)), id)
            == FailedTask(id, Some(KeywordError))
  {
  }

  /** The module-level `task_status` dictionary. */
  class TaskTable {
    var tasks: map<string, Task>

    /** Line 37: no task yet. */
    constructor()
      ensures tasks == map[]
    {
      tasks := map[];
    }

    /** `generate_report_async`: records the new task as processing and
        answers with its id. */
    method Submit(id: string, company: string, createdAt: string) returns (taskId: string)
      modifies this
      ensures taskId == id
      ensures tasks == Submitted(old(tasks), id, company, createdAt)
    {
      tasks := tasks[id := Task("processing", company, createdAt, None, None)];
      taskId := id;
    }

    /** `generate_task`: the background call's outcome recorded in the
        task's entry. */
    method Finish(id: string, outcome: Outcome)
      requires id in tasks
      modifies this
      ensures tasks == Finished(old(tasks), id, outcome)
    {
      match outcome {
        case Returned(g) =>
          tasks := tasks[id := tasks[id].(status := "completed", result := Some(g))];
        case Raised(m) =>
          tasks := tasks[id := tasks[id].(status := "failed", error := Some(m))];
      }
    }

    /** `get_task_status`. */
    function Status(id: string): (r: StatusReply)
      reads this
      ensures r == StatusOf(tasks, id)
    {
      StatusOf(tasks, id)
    }
  }
}
