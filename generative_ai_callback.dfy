/**
 * The image-generation provider's callback: it reports a task's outcome,
 * the first result image is fetched into the CDN, and the task row is
 * marked completed or failed.
 */
module GenerativeAICallback {
  import opened Wrappers

  const Completed := "completed"
  const Failed := "failed"

  /** The fields of the callback body the handler reads. */
  datatype CallbackRequest = CallbackRequest(code: int, state: string, resultJson: string, taskId: string)

  /** A row of generative_ai_tasks. */
  datatype Task = Task(
    userId: string,
    imageId: string,
    prompt: string,
    taskId: string,
    status: string,
    resultUrl: Option<string>,
    createdAt: int,
    completedAt: Option<int>,
    rawResponse: Option<string>)

  /** Rows of generative_ai_tasks by their id. */
  type Tasks = map<string, Task>

  datatype Response = BadRequest(message: string) | InternalServerError(message: string) | StatusOk

  /** What the provider reported: code 200 and state "success". */
  predicate ReportedSuccess(req: CallbackRequest) {
    req.code == 200 && req.state == "success"
  }

  /**
   * The external URL the handler downloads: the first of resultUrls, when
   * resultJson is non-empty and decodes. `decode` is json.Unmarshal into
   * the resultUrls list, None when it fails.
   */
  function FirstResultUrl(resultJson: string, decode: string -> Option<seq<string>>): (u: Option<string>)
    ensures u.Some? <==> resultJson != "" && decode(resultJson).Some? && |decode(resultJson).value| > 0
    ensures u.Some? ==> u == Some(decode(resultJson).value[0])
  {
    if resultJson == "" then None
    else match decode(resultJson)
      case None => None
      case Some(urls) => if |urls| > 0 then Some(urls[0]) else None
  }

  /** The UPDATE ... WHERE task_id = $4: every row of the task gets the four columns, no other row changes. */
  function UpdateTask(tasks: Tasks, taskId: string, status: string, resultUrl: string, now: int, raw: string): (t: Tasks)
    ensures t.Keys == tasks.Keys
    ensures forall id :: (id in tasks && tasks[id].taskId == taskId ==> t[id] == tasks[id].(
      status := status, resultUrl := Some(resultUrl), completedAt := Some(now), rawResponse := Some(raw)))
    ensures forall id :: id in tasks && tasks[id].taskId != taskId ==> t[id] == tasks[id]
  {
    map id | id in tasks :: if tasks[id].taskId == taskId
      then tasks[id].(status := status, resultUrl := Some(resultUrl), completedAt := Some(now), rawResponse := Some(raw))
      else tasks[id]
  }

  /** A callback delivered twice leaves the table as one delivery does. */
  lemma UpdateTaskIdempotent(tasks: Tasks, taskId: string, status: string, resultUrl: string, now: int, raw: string)
    ensures var once := UpdateTask(tasks, taskId, status, resultUrl, now, raw);
      UpdateTask(once, taskId, status, resultUrl, now, raw) == once
  {
  }

  /**
   * The status and result URL the handler stores: "completed" only when the
   * provider reported success and no download failed, and the local URL of
   * the first result image when its download succeeded.
   */
  function Decision(req: CallbackRequest, decode: string -> Option<seq<string>>, download: string -> Option<string>): (r: (string, string))
    ensures var url := FirstResultUrl(req.resultJson, decode);
      && (r.0 == Completed || r.0 == Failed)
      && (r.0 == Completed <==> ReportedSuccess(req) && (url.None? || download(url.value).Some?))
      && (url.None? ==> r.1 == "")
      && (url.Some? && download(url.value).None? ==> r == (Failed, ""))
      && (url.Some? && download(url.value).Some? ==> r.1 == download(url.value).value)
  {
    var reported := if ReportedSuccess(req) then Completed else Failed;
    match FirstResultUrl(req.resultJson, decode)
    case None => (reported, "")
    case Some(externalURL) =>
      match download(externalURL)
      case None => (Failed, "")
      case Some(localURL) => (reported, localURL)
  }

  /**
   * PostGenerativeAICallback.Handler. `body` is the parsed request (None
   * when it does not parse), `download` what downloadAndSaveImage gives for
   * an external URL (the local URL, or None on any failure) and `updateOk`
   * whether the UPDATE succeeds.
   */
  method Handler(body: Option<CallbackRequest>, tasks: Tasks, now: int,
                 decode: string -> Option<seq<string>>, download: string -> Option<string>, updateOk: bool)
    returns (response: Response, tasks': Tasks)
    ensures body.None? ==> response == BadRequest("invalid request body") && tasks' == tasks
    ensures body.Some? && body.value.taskId == "" ==> response == BadRequest("task_id is required") && tasks' == tasks
    ensures body.Some? && body.value.taskId != "" && !updateOk
      ==> response == InternalServerError("failed to update task") && tasks' == tasks
    ensures body.Some? && body.value.taskId != "" && updateOk ==>
      var (status, resultURL) := Decision(body.value, decode, download);
      response == StatusOk && tasks' == UpdateTask(tasks, body.value.taskId, status, resultURL, now, body.value.resultJson)
  {
    if body.None? {
      return BadRequest("invalid request body"), tasks;
    }
    var req := body.value;
    if req.taskId == "" {
      return BadRequest("task_id is required"), tasks;
    }
    var status := Failed;
    if req.code == 200 && req.state == "success" {
      status := Completed;
    }
    var resultURL := "";
    if req.resultJson != "" {
      var decoded := decode(req.resultJson);
      if decoded.Some? {
        if |decoded.value| > 0 {
          var externalURL := decoded.value[0];
          var localURL := download(externalURL);
          if localURL.None? {
            status := Failed;
          } else {
            resultURL := localURL.value;
          }
        }
      }
    }
    if !updateOk {
      return InternalServerError("failed to update task"), tasks;
    }
    tasks' := UpdateTask(tasks, req.taskId, status, resultURL, now, req.resultJson);
    response := StatusOk;
  }
}
