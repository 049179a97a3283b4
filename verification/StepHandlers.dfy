/** The step handlers and the Jira requests that they send. */
module StepHandlers {

  import opened Text
  import opened Workflow
  import opened Markers
  import opened JiraErrors

  /** What the engine knows about its Jira connection: whether the client could be built, and the
      environment settings, empty if missing. */
  datatype JiraSettings = JiraSettings(client: bool, enabled: bool, baseUrl: string, email: string, apiToken: string)

  datatype Readiness = Ready | ClientUnavailable | Disabled | NotConfigured

  /** The first precondition that fails. */
  function CheckJiraReadiness(settings: JiraSettings): Readiness {
    if !settings.client then ClientUnavailable
    else if !settings.enabled then Disabled
    else if settings.baseUrl == "" || settings.email == "" || settings.apiToken == "" then NotConfigured
    else Ready
  }

  predicate IsJiraReady(settings: JiraSettings) {
    settings.client && settings.enabled && settings.baseUrl != "" && settings.email != "" && settings.apiToken != ""
  }

  /** What comes back from one request. */
  datatype ClientResponse = Accepted(id: string) | Refused(error: RawError)

  /** When a request takes effect: never, before the client has its answer, or only after the
      client has given up waiting for one. */
  datatype Arrival = Never | InTime | Late

  /** Jira's reaction to one request: whether and when it takes effect, and what the client sees. */
  datatype Reaction = Reaction(arrival: Arrival, response: ClientResponse)
  {
    /** A request that Jira accepts has taken effect. */
    predicate Honest() {
      response.Accepted? ==> arrival.InTime?
    }
  }

  datatype Request =
    | AddComment(issue: string, body: Node)
    | TransitionIssue(issue: string, transition: string)

  /** The request that a Jira step sends. */
  function RequestOf(d: StepDef, executionId: string): Request
    requires CallsJira(d)
  {
    if d.action.JiraComment? then
      AddComment(Trim(d.issueKey), BuildJiraCommentBody(BuildGovFlowJiraComment(d.comment, executionId, d.id)))
    else
      TransitionIssue(Trim(d.issueKey), Trim(d.transitionId))
  }

  /** What that request asks for: the configured transition on the configured issue, or a comment on
      the configured issue whose text is the user's, the step's marker line and the execution's. */
  lemma RequestSays(d: StepDef, executionId: string)
    requires CallsJira(d)
    ensures d.action.JiraTransition? ==>
      RequestOf(d, executionId) == TransitionIssue(Trim(d.issueKey), Trim(d.transitionId))
    ensures d.action.JiraComment? ==>
      && RequestOf(d, executionId).AddComment?
      && RequestOf(d, executionId).issue == Trim(d.issueKey)
      && ExtractAdfPlainText(RequestOf(d, executionId).body) ==
           Trim(d.comment) + "\n\n" + ("GovFlow executionStepId: " + d.id) +
           ("\n" + ("GovFlow executionId: " + executionId))
  {
    FlattenUndoesBuild(BuildGovFlowJiraComment(d.comment, executionId, d.id));
    CommentLayout(d.comment, executionId, d.id);
  }

  predicate Sends(d: StepDef, settings: JiraSettings) {
    CallsJira(d) && IsJiraReady(settings)
  }

  /** How the handler of step `d` ends. */
  function OutcomeOf(d: StepDef, settings: JiraSettings, reaction: Reaction): HandlerOutcome {
    if d.shouldFail then BusinessError
    else if !d.action.Jira() then Success(Simulated(d.action))
    else if !d.configurationValid then BusinessError
    else match CheckJiraReadiness(settings)
      case ClientUnavailable => RetryableError
      case Disabled => BusinessError
      case NotConfigured => RetryableError
      case Ready =>
        match reaction.response
        case Accepted(id) =>
          Success(if d.action.JiraComment? then Comment(Trim(d.issueKey), id, false)
                  else Transition(Trim(d.issueKey), Trim(d.transitionId)))
        case Refused(error) => if NormalizeJiraError(error).Business? then BusinessError else RetryableError
  }

  predicate TakesEffect(d: StepDef, settings: JiraSettings, reaction: Reaction) {
    Sends(d, settings) && reaction.arrival.InTime?
  }

  /** Is the request still in flight when the call ends? */
  predicate Lingers(d: StepDef, settings: JiraSettings, reaction: Reaction) {
    Sends(d, settings) && reaction.arrival.Late?
  }

  /** Every way in which a handler ends, by what is configured, ready and answered. */
  lemma HandlerOutcomes(d: StepDef, settings: JiraSettings, reaction: Reaction)
    ensures
      var outcome := OutcomeOf(d, settings, reaction);
      var reached := d.action.Jira() && !d.shouldFail && d.configurationValid;
      var refused := IsJiraReady(settings) && reaction.response.Refused?;
      && (outcome.BusinessError? <==>
            || d.shouldFail
            || (d.action.Jira() && !d.configurationValid)
            || (reached && settings.client && !settings.enabled)
            || (reached && refused && NormalizeJiraError(reaction.response.error).Business?))
      && (outcome.RetryableError? <==>
            && reached
            && (!settings.client || (settings.enabled && !IsJiraReady(settings)) ||
                (refused && NormalizeJiraError(reaction.response.error).Technical?)))
      && (outcome.Success? ==>
            && (!d.action.Jira() ==> outcome.body == Simulated(d.action))
            && (d.action.JiraTransition? ==> outcome.body == Transition(Trim(d.issueKey), Trim(d.transitionId)))
            && (d.action.JiraComment? ==>
                  && reaction.response.Accepted?
                  && outcome.body == Comment(Trim(d.issueKey), reaction.response.id, false)))
  {
  }

  /** If Jira accepts only what took effect, handlers end in one of the ways that the protocol
      allows. */
  lemma HandlersFitProtocol(d: StepDef, settings: JiraSettings, reaction: Reaction)
    requires reaction.Honest()
    ensures CanEnd(d, TakesEffect(d, settings, reaction), OutcomeOf(d, settings, reaction))
    ensures TakesEffect(d, settings, reaction) ==> CallsJira(d)
    ensures Lingers(d, settings, reaction) ==> CallsJira(d) && !OutcomeOf(d, settings, reaction).Success?
  {
  }

  /** Exactly which handler calls break (A), and which break (R): the request takes effect, in time
      or late, although the client got an error, and the kind of error decides between the two. */
  lemma EffectBehindError(d: StepDef, settings: JiraSettings, reaction: Reaction)
    requires reaction.Honest()
    ensures
      var outcome := OutcomeOf(d, settings, reaction);
      var effect := TakesEffect(d, settings, reaction) || Lingers(d, settings, reaction);
      var lost := Sends(d, settings) && !reaction.arrival.Never? && reaction.response.Refused?;
      && (outcome.RetryableError? && effect <==> lost && NormalizeJiraError(reaction.response.error).Technical?)
      && (outcome.BusinessError? && effect <==> lost && NormalizeJiraError(reaction.response.error).Business?)
  {
  }

  /** The persisted output of a successful call proves the operation to the deduplication guard
      exactly if the step calls Jira and the external id is not empty. */
  lemma DedupRecognisesHandlers(d: StepDef, settings: JiraSettings, reaction: Reaction)
    requires OutcomeOf(d, settings, reaction).Success?
    ensures var reason := ExternalOperationDedupReason(Some(Enrich(d, OutcomeOf(d, settings, reaction).body)));
      && (reason == Some(CommentAlreadyCreated) <==> d.action.JiraComment? && reaction.response.id != "")
      && (reason == Some(TransitionAlreadyApplied) <==> d.action.JiraTransition? && Trim(d.transitionId) != "")
  {
  }

  /** The external Jira state: the requests that took effect, in order, those that still may, and all
      that were ever sent. */
  class Jira {
    var applied: seq<Request>
    var inFlight: multiset<Request>
    var sent: seq<Request>

    constructor ()
      ensures applied == [] && inFlight == multiset{} && sent == []
    {
      applied, inFlight, sent := [], multiset{}, [];
    }

    method Post(request: Request, reaction: Reaction) returns (response: ClientResponse)
      modifies this
      ensures response == reaction.response
      ensures sent == old(sent) + [request]
      ensures applied == if reaction.arrival.InTime? then old(applied) + [request] else old(applied)
      ensures inFlight == if reaction.arrival.Late? then old(inFlight) + multiset{request} else old(inFlight)
    {
      sent := sent + [request];
      response := reaction.response;
      match reaction.arrival
      case Never =>
      case InTime => applied := applied + [request];
      case Late => inFlight := inFlight + multiset{request};
    }

    /** A request that nobody waits for any more takes effect. */
    method Land(request: Request)
      requires request in inFlight
      modifies this`applied, this`inFlight
      ensures applied == old(applied) + [request] && inFlight == old(inFlight) - multiset{request}
    {
      applied, inFlight := applied + [request], inFlight - multiset{request};
    }
  }

  /** Business and retryable errors of the Jira service, as the processor sees them. */
  function Raise(e: JiraError): HandlerOutcome {
    if e.Business? then BusinessError else RetryableError
  }

  /** A disabled integration is final; a missing client or setting may be mended and is retried. */
  method AssertJiraIntegrationReady(settings: JiraSettings) returns (error: Option<HandlerOutcome>)
    ensures error.None? <==>
      settings.client && settings.enabled && settings.baseUrl != "" && settings.email != "" && settings.apiToken != ""
    ensures error == Some(BusinessError) <==> settings.client && !settings.enabled
    ensures error.None? || error == Some(BusinessError) || error == Some(RetryableError)
  {
    match CheckJiraReadiness(settings)
    case Ready => error := None;
    case ClientUnavailable => error := Some(RetryableError);
    case Disabled => error := Some(BusinessError);
    case NotConfigured => error := Some(RetryableError);
  }

  /** Send one request for step `d` and read its answer. */
  method CallJira(jira: Jira, d: StepDef, executionId: string, settings: JiraSettings, reaction: Reaction)
    returns (outcome: HandlerOutcome)
    requires CallsJira(d)
    modifies jira
    ensures outcome == OutcomeOf(d, settings, reaction)
    ensures jira.sent == if IsJiraReady(settings) then old(jira.sent) + [RequestOf(d, executionId)] else old(jira.sent)
    ensures jira.applied ==
      if TakesEffect(d, settings, reaction) then old(jira.applied) + [RequestOf(d, executionId)] else old(jira.applied)
    ensures jira.inFlight == old(jira.inFlight) +
      if Lingers(d, settings, reaction) then multiset{RequestOf(d, executionId)} else multiset{}
  {
    var unready := AssertJiraIntegrationReady(settings);
    if unready.Some? {
      return unready.value;
    }
    var response: ClientResponse;
    if d.action.JiraComment? {
      var commentText := BuildGovFlowJiraComment(d.comment, executionId, d.id);
      response := jira.Post(AddComment(Trim(d.issueKey), BuildJiraCommentBody(commentText)), reaction);
    } else {
      response := jira.Post(TransitionIssue(Trim(d.issueKey), Trim(d.transitionId)), reaction);
    }
    match response
    case Accepted(id) =>
      outcome := Success(if d.action.JiraComment? then Comment(Trim(d.issueKey), id, false)
                         else Transition(Trim(d.issueKey), Trim(d.transitionId)));
    case Refused(error) =>
      outcome := Raise(NormalizeJiraError(error));
  }

  /** Dispatch on the action type. Only a Jira step that is neither simulated to fail nor badly
      configured sends a request, and only while Jira is ready; it sends one. A transition step asks
      for its transition on its issue, a comment step posts its comment to its issue, and a
      success reports the same issue and transition. */
  method HandleWorkflowStepWithContext(jira: Jira, d: StepDef, executionId: string, settings: JiraSettings,
                                       reaction: Reaction)
    returns (outcome: HandlerOutcome)
    modifies jira
    ensures outcome == OutcomeOf(d, settings, reaction)
    ensures reaction.Honest() ==> CanEnd(d, TakesEffect(d, settings, reaction), outcome)
    ensures if d.action.Jira() && !d.shouldFail && d.configurationValid && IsJiraReady(settings) then
        && |jira.sent| == |old(jira.sent)| + 1 && old(jira.sent) <= jira.sent
        && var request := jira.sent[|old(jira.sent)|];
        && (d.action.JiraTransition? ==>
              && request.TransitionIssue?
              && request.issue == Trim(d.issueKey) && request.transition == Trim(d.transitionId)
              && (outcome.Success? ==> outcome.body == Transition(request.issue, request.transition)))
        && (d.action.JiraComment? ==>
              && request.AddComment?
              && request.issue == Trim(d.issueKey)
              && ExtractAdfPlainText(request.body) ==
                   Trim(d.comment) + "\n\n" + ("GovFlow executionStepId: " + d.id) +
                   ("\n" + ("GovFlow executionId: " + executionId))
              && (outcome.Success? ==> outcome.body.Comment? && outcome.body.issueKey == request.issue))
        && jira.applied == old(jira.applied) + (if reaction.arrival.InTime? then [request] else [])
        && jira.inFlight == old(jira.inFlight) + (if reaction.arrival.Late? then multiset{request} else multiset{})
      else
        jira.sent == old(jira.sent) && jira.applied == old(jira.applied) && jira.inFlight == old(jira.inFlight)
  {
    if d.shouldFail {
      return BusinessError;
    }
    match d.action
    case Manual => outcome := Success(Simulated(Manual));
    case Notification => outcome := Success(Simulated(Notification));
    case _ =>
      if d.configurationValid {
        RequestSays(d, executionId);
        outcome := CallJira(jira, d, executionId, settings, reaction);
      } else {
        outcome := BusinessError;
      }
  }
}
