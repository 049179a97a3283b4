/** How a failed Jira request is classified. */
module JiraErrors {

  import opened Workflow

  /** A raw client error: whether Jira responded, with which status, and whether the error carries
      a client error code. */
  datatype RawError = RawError(responded: bool, status: Option<int>, hasCode: bool)
  {
    predicate HasStatus(x: int) {
      responded && status == Some(x)
    }
  }

  datatype JiraError = Business | Technical

  function StatusOf(e: RawError): Option<int> {
    if e.responded then e.status else None
  }

  predicate Mapped(status: int) {
    status == 400 || status == 401 || status == 403 || status == 404
  }

  predicate RetryableClientStatus(status: int) {
    status == 408 || status == 429
  }

  function NormalizeJiraError(e: RawError): JiraError {
    match StatusOf(e)
    case Some(status) =>
      if Mapped(status) then Business
      else if RetryableClientStatus(status) || status >= 500 || e.hasCode then Technical
      else if 400 <= status < 500 then Business
      else Technical
    case None => Technical
  }

  /** An unmapped 4xx is meant to be final; it is so if and only if the error carries no code. */
  lemma UnmappedClientErrorIsFinal(e: RawError, status: int)
    requires e.HasStatus(status) && 400 <= status < 500 && !Mapped(status) && !RetryableClientStatus(status)
    ensures NormalizeJiraError(e).Business? <==> !e.hasCode
  {
  }

  /** Errors in the shape that the HTTP client throws do carry one: a 422 is retried. */
  lemma UnprocessableEntityIsRetried()
    ensures NormalizeJiraError(RawError(true, Some(422), true)).Technical?
  {
  }

  /** A failed request is final if and only if Jira itself answered with a 4xx other than 408 and
      429, and either the status is one of 400, 401, 403 and 404 or the error carries no code. */
  lemma FinalErrorsComeFromJira(e: RawError)
    ensures NormalizeJiraError(e).Business? <==>
      exists status :: e.HasStatus(status) && 400 <= status < 500 && status !in {408, 429} &&
                       (status in {400, 401, 403, 404} || !e.hasCode)
  {
    if NormalizeJiraError(e).Business? {
      assert e.HasStatus(e.status.value);
    }
  }
}
