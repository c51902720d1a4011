/**
 * The accept/reject pipeline of the GitHub webhook handler. A delivery passes
 * a fixed chain of stages; each stage either lets it through or ends it with a
 * fixed status and message. Collaborators (signature check, pull-request
 * fetch, allow-list, duplicate store, rate limiter, debug store, background
 * review) return their outcomes as inputs, and the handler's calls to them are
 * recorded, in order, in a trace.
 *
 * `HandleWebhook` states the pipeline stage by stage; `WebhookHandler`
 * follows the handler's own step-by-step control flow, reassigning the
 * working payload as the source does, and is proved to agree with it.
 */
module Webhook {
  import opened Wrappers
  import opened Text
  import Mention
  import Repository

  // Event names, actions and markers the handler compares against.
  const PullRequestEvent: string := "pull_request"
  const ReviewEvent: string := "pull_request_review"
  const IssueCommentEvent: string := "issue_comment"
  const ReviewRequested: string := "review_requested"
  const CreatedAction: string := "created"
  const OpenedAction: string := "opened"
  const BotType: string := "Bot"
  const BotLogin: string := "argus-ai-assistant"
  const SkipCommand: string := "skip"
  const MentionTrigger: string := "mention"

  // The fixed texts of the handler's replies.
  const InvalidSignature: string := "Invalid signature"
  const EventIgnored: string := "Event ignored"
  const ActionIgnored: string := "Action ignored - waiting for review request"
  const NotForArgus: string := "Review request not for ArgusAI"
  const InvalidRepository: string := "Invalid repository name"
  const CommentIgnored: string := "Comment ignored"
  const NoMention: string := "No ArgusAI mention found"
  const SkipAcknowledged: string := "Skip command acknowledged"
  const FetchFailed: string := "Failed to fetch pull request"
  const DraftIgnored: string := "Draft PR ignored"
  const NotAllowed: string := "Repository not on allowed list"
  const DuplicateEvent: string := "Duplicate event"
  const RateLimited: string := "Rate limit exceeded"

  /** The `requested_reviewer` of a review request: its `type` and optional `login`. */
  datatype Reviewer = Reviewer(kind: string, login: Option<string>)

  /** The fields of a pull request the pipeline reads. */
  datatype PullRequest = PullRequest(number: int, draft: bool)

  /**
   * The parsed delivery: the `x-github-event` and `x-github-delivery` headers
   * and the payload fields the handler reads. `pullRequest` is the payload's
   * own `pull_request` (read on the pull_request and pull_request_review
   * paths); `issueNumber`, `issueIsPullRequest` and `commentBody` come from an
   * issue_comment payload.
   */
  datatype Delivery = Delivery(
    eventType: Option<string>,
    action: string,
    requestedReviewer: Option<Reviewer>,
    fullName: string,
    pullRequest: PullRequest,
    issueNumber: int,
    issueIsPullRequest: bool,
    commentBody: Option<string>,
    installationId: Option<int>,
    deliveryId: string)

  /** What each collaborator answers for this delivery. */
  datatype Collaborators = Collaborators(
    signatureValid: bool,
    fetched: Option<PullRequest>,
    allowed: bool,
    duplicate: bool,
    rateOk: bool)

  /** The pull-request event payload handed to the review, with the mention metadata. */
  datatype PrPayload = PrPayload(
    action: string,
    pullRequest: PullRequest,
    fullName: string,
    installationId: Option<int>,
    reviewType: Option<string>,
    triggeredBy: Option<string>)

  /** The one background review the handler starts for an accepted delivery. */
  datatype DispatchJob = DispatchJob(payload: PrPayload, deliveryId: string)

  /** The stages at which the handler consults a collaborator, in the order it runs them. */
  datatype Stage =
    | SignatureCheck | PullRequestFetch | AllowListCheck | DuplicateCheck
    | RateLimitCheck | DebugSnapshot | JobDispatch
  {
    function Index(): nat {
      match this
      case SignatureCheck => 0
      case PullRequestFetch => 1
      case AllowListCheck => 2
      case DuplicateCheck => 3
      case RateLimitCheck => 4
      case DebugSnapshot => 5
      case JobDispatch => 6
    }
  }

  /** One call to a collaborator, with the arguments the handler passes. */
  datatype Call =
    | VerifySignature
    | FetchPullRequest(owner: string, repo: string, number: int, installation: int)
    | CheckAllowed(owner: string, repo: string)
    | CheckDuplicate(fullName: string, prNumber: int, deliveryId: string)
    | CheckRateLimit(installation: int)
    | SaveSnapshot(payload: PrPayload)
    | Dispatch(job: DispatchJob)
  {
    function Stage(): Stage {
      match this
      case VerifySignature => SignatureCheck
      case FetchPullRequest(_, _, _, _) => PullRequestFetch
      case CheckAllowed(_, _) => AllowListCheck
      case CheckDuplicate(_, _, _) => DuplicateCheck
      case CheckRateLimit(_) => RateLimitCheck
      case SaveSnapshot(_) => DebugSnapshot
      case Dispatch(_) => JobDispatch
    }
  }

  /** The JSON body of a reply: `{message}`, `{error}`, or the acceptance with its delivery id. */
  datatype Body = Message(text: string) | Failure(text: string) | Started(deliveryId: string)

  datatype Response = Response(status: int, body: Body)

  /** The reply, the background job if one was started, and the collaborator calls in order. */
  datatype Outcome = Outcome(response: Response, job: Option<DispatchJob>, trace: seq<Call>)

  /** The calls follow the stage order, each stage at most once. */
  predicate InOrder(trace: seq<Call>) {
    forall i, j :: 0 <= i < j < |trace| ==> trace[i].Stage().Index() < trace[j].Stage().Index()
  }

  /** Every call of `trace` belongs to a stage that runs before stage number `n`. */
  predicate AllBefore(trace: seq<Call>, n: nat) {
    forall i :: 0 <= i < |trace| ==> trace[i].Stage().Index() < n
  }

  /** The collaborator of stage `s` was consulted. */
  predicate Consulted(trace: seq<Call>, s: Stage) {
    exists i :: 0 <= i < |trace| && trace[i].Stage() == s
  }

  /** Event types the handler processes at all (lines 68-75). */
  predicate InScope(eventType: Option<string>): (b: bool)
    ensures eventType.None? ==> !b
    ensures b ==> eventType.value in {PullRequestEvent, ReviewEvent, IssueCommentEvent}
    ensures eventType == Some("push") ==> !b
  {
    eventType == Some(PullRequestEvent) || eventType == Some(ReviewEvent) || eventType == Some(IssueCommentEvent)
  }

  /** The requested reviewer is a bot whose login contains `argus-ai-assistant` (lines 86-90). */
  predicate RequestsArgus(r: Option<Reviewer>): (b: bool)
    ensures b ==> r.Some? && r.value.kind == BotType && r.value.login.Some?
    ensures b ==> |BotLogin| <= |r.value.login.value|
    ensures r.Some? && r.value.kind == BotType && r.value.login == Some(BotLogin) ==> b
    ensures r.Some? && r.value.kind == BotType && r.value.login == Some(BotLogin + "[bot]") ==> b
    ensures r.Some? && r.value.kind != BotType ==> !b
  {
    r.Some? && r.value.kind == BotType && r.value.login.Some? && Contains(r.value.login.value, BotLogin)
  }

  /** An ending without a job. */
  function Stop(status: int, body: Body, trace: seq<Call>): Outcome {
    Outcome(Response(status, body), None, trace)
  }

  /** A direct pull_request or pull_request_review delivery is reviewed with its own payload. */
  function DirectPayload(d: Delivery): PrPayload {
    PrPayload(d.action, d.pullRequest, d.fullName, d.installationId, None, None)
  }

  /**
   * Lines 158-170: a mention is turned into a pull-request event with action
   * `opened`, the fetched pull request, the comment's repository and
   * installation, and the review type and `mention` trigger as metadata.
   */
  function MentionPayload(d: Delivery, pr: PullRequest, reviewType: string): (p: PrPayload)
    ensures p.action == OpenedAction && p.pullRequest == pr && p.fullName == d.fullName
    ensures p.installationId == d.installationId
    ensures p.reviewType == Some(reviewType) && p.triggeredBy == Some(MentionTrigger)
  {
    PrPayload(OpenedAction, pr, d.fullName, d.installationId, Some(reviewType), Some(MentionTrigger))
  }

  /** Appending a call of a later stage keeps a trace in stage order. */
  lemma AppendInOrder(trace: seq<Call>, c: Call)
    requires InOrder(trace) && AllBefore(trace, c.Stage().Index())
    ensures InOrder(trace + [c]) && AllBefore(trace + [c], c.Stage().Index() + 1)
  {
  }

  /** Lines 224-263: the debug snapshot, the one dispatch, and the acceptance reply. */
  function Accept(d: Delivery, p: PrPayload, trace: seq<Call>): (o: Outcome)
    requires |trace| >= 1 && trace[0] == VerifySignature
    requires InOrder(trace) && AllBefore(trace, DebugSnapshot.Index())
    ensures |o.trace| >= 1 && o.trace[0] == VerifySignature && InOrder(o.trace)
    ensures o.response == Response(200, Started(d.deliveryId)) && o.job == Some(DispatchJob(p, d.deliveryId))
    ensures |o.trace| >= 2 && o.trace[|o.trace| - 1] == Dispatch(o.job.value)
            && o.trace[|o.trace| - 2] == SaveSnapshot(p)
  {
    var job := DispatchJob(p, d.deliveryId);
    var t := trace + [SaveSnapshot(p)];
    AppendInOrder(trace, SaveSnapshot(p));
    AppendInOrder(t, Dispatch(job));
    Outcome(Response(200, Started(d.deliveryId)), Some(job), t + [Dispatch(job)])
  }

  /** Lines 217-222: the rate limit, keyed on the installation id or 0. */
  function RateGate(d: Delivery, env: Collaborators, p: PrPayload, trace: seq<Call>): (o: Outcome)
    requires |trace| >= 1 && trace[0] == VerifySignature
    requires InOrder(trace) && AllBefore(trace, RateLimitCheck.Index())
    ensures |o.trace| >= 1 && o.trace[0] == VerifySignature && InOrder(o.trace)
    ensures o.job.Some? <==> o.response == Response(200, Started(d.deliveryId))
    ensures o.job.Some? ==> o.job.value == DispatchJob(p, d.deliveryId) && o.trace[|o.trace| - 1] == Dispatch(o.job.value)
    ensures !env.rateOk <==> o.response == Response(429, Failure(RateLimited))
    ensures env.rateOk <==> o.job.Some?
  {
    var c := CheckRateLimit(p.installationId.GetOr(0));
    AppendInOrder(trace, c);
    if !env.rateOk then Stop(429, Failure(RateLimited), trace + [c])
    else Accept(d, p, trace + [c])
  }

  /** Lines 205-215: the duplicate check, keyed on repository, pull-request number and delivery id. */
  function DedupGate(d: Delivery, env: Collaborators, p: PrPayload, trace: seq<Call>): (o: Outcome)
    requires |trace| >= 1 && trace[0] == VerifySignature
    requires InOrder(trace) && AllBefore(trace, DuplicateCheck.Index())
    ensures |o.trace| >= 1 && o.trace[0] == VerifySignature && InOrder(o.trace)
    ensures o.job.Some? <==> o.response == Response(200, Started(d.deliveryId))
    ensures o.job.Some? ==> o.job.value == DispatchJob(p, d.deliveryId) && o.trace[|o.trace| - 1] == Dispatch(o.job.value)
    ensures env.duplicate <==> o.response == Response(200, Message(DuplicateEvent))
    ensures !env.duplicate && !env.rateOk <==> o.response == Response(429, Failure(RateLimited))
    ensures !env.duplicate && env.rateOk <==> o.job.Some?
  {
    var c := CheckDuplicate(p.fullName, p.pullRequest.number, d.deliveryId);
    AppendInOrder(trace, c);
    if env.duplicate then Stop(200, Message(DuplicateEvent), trace + [c])
    else RateGate(d, env, p, trace + [c])
  }

  /** Lines 189-200: the allow-list, asked with the owner and repository from the split name. */
  function AllowGate(d: Delivery, env: Collaborators, r: Repository.RepoRef, p: PrPayload, trace: seq<Call>): (o: Outcome)
    requires |trace| >= 1 && trace[0] == VerifySignature
    requires InOrder(trace) && AllBefore(trace, AllowListCheck.Index())
    ensures |o.trace| >= 1 && o.trace[0] == VerifySignature && InOrder(o.trace)
    ensures o.job.Some? <==> o.response == Response(200, Started(d.deliveryId))
    ensures o.job.Some? ==> o.job.value == DispatchJob(p, d.deliveryId) && o.trace[|o.trace| - 1] == Dispatch(o.job.value)
    ensures !env.allowed <==> o.response == Response(200, Message(NotAllowed))
    ensures env.allowed && env.duplicate <==> o.response == Response(200, Message(DuplicateEvent))
    ensures env.allowed && !env.duplicate && !env.rateOk <==> o.response == Response(429, Failure(RateLimited))
    ensures env.allowed && !env.duplicate && env.rateOk <==> o.job.Some?
  {
    var c := CheckAllowed(r.owner, r.repo);
    AppendInOrder(trace, c);
    if !env.allowed then Stop(200, Message(NotAllowed), trace + [c])
    else DedupGate(d, env, p, trace + [c])
  }

  /** Lines 180-263: a draft is dropped before any store is consulted; otherwise the gates run. */
  function Gates(d: Delivery, env: Collaborators, r: Repository.RepoRef, p: PrPayload, trace: seq<Call>): (o: Outcome)
    requires |trace| >= 1 && trace[0] == VerifySignature
    requires InOrder(trace) && AllBefore(trace, AllowListCheck.Index())
    ensures |o.trace| >= 1 && o.trace[0] == VerifySignature && InOrder(o.trace)
    ensures o.job.Some? <==> o.response == Response(200, Started(d.deliveryId))
    ensures o.job.Some? ==> o.job.value == DispatchJob(p, d.deliveryId) && !p.pullRequest.draft
                            && o.trace[|o.trace| - 1] == Dispatch(o.job.value)
    ensures p.pullRequest.draft <==> o.response == Response(200, Message(DraftIgnored))
    ensures var open := !p.pullRequest.draft;
            && (open && !env.allowed <==> o.response == Response(200, Message(NotAllowed)))
            && (open && env.allowed && env.duplicate <==> o.response == Response(200, Message(DuplicateEvent)))
            && (open && env.allowed && !env.duplicate && !env.rateOk <==> o.response == Response(429, Failure(RateLimited)))
            && (open && env.allowed && !env.duplicate && env.rateOk <==> o.job.Some?)
  {
    if p.pullRequest.draft then Stop(200, Message(DraftIgnored), trace)
    else AllowGate(d, env, r, p, trace)
  }

  /** Lines 147-155: the fetch, made with the split owner and repo, the issue number and the installation id or 0. */
  function FetchCall(d: Delivery, r: Repository.RepoRef): (c: Call)
    ensures c.Stage() == PullRequestFetch
  {
    FetchPullRequest(r.owner, r.repo, d.issueNumber, d.installationId.GetOr(0))
  }

  /** Line 121: the comment body, or the empty string when there is none. */
  function CommentText(d: Delivery): (r: string)
    ensures d.commentBody.Some? ==> r == d.commentBody.value
    ensures d.commentBody.None? ==> r == "" && Mention.ParseCommand(r).None?
  {
    d.commentBody.GetOr("")
  }

  /**
   * Lines 109-177: the comment trigger. Only a created comment on a pull
   * request is read; its body (empty when missing) must mention the bot; `skip`
   * is acknowledged; `review` fetches the pull request and continues with the
   * mention payload. `mention` is the command parsed from the comment body.
   */
  function CommentTrigger(d: Delivery, env: Collaborators, r: Repository.RepoRef, mention: Option<Mention.Command>): (o: Outcome)
    ensures |o.trace| >= 1 && o.trace[0] == VerifySignature && InOrder(o.trace)
    ensures o.job.Some? <==> o.response == Response(200, Started(d.deliveryId))
    ensures o.response.status == 200 || o.response.status == 429 || o.response.status == 500
    ensures o.job.Some? ==> && mention.Some? && mention.value.name != SkipCommand && env.fetched.Some?
                            && o.job.value.payload == MentionPayload(d, env.fetched.value, mention.value.reviewType)
  {
    if d.action != CreatedAction || !d.issueIsPullRequest then Stop(200, Message(CommentIgnored), [VerifySignature])
    else
      match mention
      case None => Stop(200, Message(NoMention), [VerifySignature])
      case Some(command) =>
        if command.name == SkipCommand then Stop(200, Message(SkipAcknowledged), [VerifySignature])
        else
          var fetch := FetchCall(d, r);
          AppendInOrder([VerifySignature], fetch);
          var trace := [VerifySignature] + [fetch];
          match env.fetched
          case None => Stop(500, Failure(FetchFailed), trace)
          case Some(pr) => Gates(d, env, r, MentionPayload(d, pr, command.reviewType), trace)
  }

  /**
   * `webhookHandler` from the signature check on (lines 35-263), given the
   * command parsed from the comment body: the reply, the job it starts and the
   * collaborators it consults, in order. The parse is read only on the
   * comment trigger.
   */
  function HandleDelivery(d: Delivery, env: Collaborators, mention: Option<Mention.Command>): (o: Outcome)
    ensures |o.trace| >= 1 && o.trace[0] == VerifySignature && InOrder(o.trace)
    ensures o.response.status == 401 <==> !env.signatureValid
    ensures !env.signatureValid ==> o.trace == [VerifySignature]
    ensures o.job.Some? <==> o.response == Response(200, Started(d.deliveryId))
    ensures o.job.Some? ==> o.trace[|o.trace| - 1] == Dispatch(o.job.value)
                            && o.job.value.deliveryId == d.deliveryId && !o.job.value.payload.pullRequest.draft
    ensures o.job.Some? && d.eventType != Some(IssueCommentEvent) ==> o.job.value.payload == DirectPayload(d)
    ensures o.job.Some? && d.eventType == Some(IssueCommentEvent) ==>
              && mention.Some? && mention.value.name != SkipCommand && env.fetched.Some?
              && o.job.value.payload == MentionPayload(d, env.fetched.value, mention.value.reviewType)
  {
    if !env.signatureValid then Stop(401, Failure(InvalidSignature), [VerifySignature])
    else if !InScope(d.eventType) then Stop(200, Message(EventIgnored), [VerifySignature])
    else if d.eventType == Some(PullRequestEvent) && d.action != ReviewRequested then
      Stop(200, Message(ActionIgnored), [VerifySignature])
    else if d.eventType == Some(PullRequestEvent) && !RequestsArgus(d.requestedReviewer) then
      Stop(200, Message(NotForArgus), [VerifySignature])
    else
      match Repository.OwnerAndRepo(d.fullName)
      case None => Stop(400, Message(InvalidRepository), [VerifySignature])
      case Some(r) =>
        if d.eventType == Some(IssueCommentEvent) then CommentTrigger(d, env, r, mention)
        else Gates(d, env, r, DirectPayload(d), [VerifySignature])
  }

  /**
   * `webhookHandler` (lines 33-263): the delivery handled with the command its
   * comment body carries. A review started from a comment is of the type the
   * comment names, `full` by default, and is triggered by the mention.
   */
  function HandleWebhook(d: Delivery, env: Collaborators): (o: Outcome)
    ensures o.job.Some? && d.eventType == Some(IssueCommentEvent) ==>
              var t := o.job.value.payload.reviewType;
              && t.Some? && (t.value == Mention.DefaultScope || t.value in Mention.Scopes)
              && o.job.value.payload.triggeredBy == Some(MentionTrigger)
              && o.job.value.payload.action == OpenedAction
  {
    HandleDelivery(d, env, Mention.ParseCommand(CommentText(d)))
  }

  /**
   * The handler's own control flow (lines 33-263): early returns, the working
   * `payload` that the comment trigger replaces with a pull-request event and
   * then annotates with `reviewType` and `triggeredBy` (lines 158-173), and
   * the collaborator calls appended to `trace` as they are made.
   */
  method WebhookHandler(d: Delivery, env: Collaborators) returns (o: Outcome)
    ensures o == HandleWebhook(d, env)
  {
    var trace: seq<Call> := [VerifySignature];
    if !env.signatureValid {
      return Stop(401, Failure(InvalidSignature), trace);
    }
    if !InScope(d.eventType) {
      return Stop(200, Message(EventIgnored), trace);
    }
    if d.eventType == Some(PullRequestEvent) {
      if d.action != ReviewRequested {
        return Stop(200, Message(ActionIgnored), trace);
      }
      if !RequestsArgus(d.requestedReviewer) {
        return Stop(200, Message(NotForArgus), trace);
      }
    }
    var split := Repository.OwnerAndRepo(d.fullName);
    if split.None? {
      return Stop(400, Message(InvalidRepository), trace);
    }
    var r := split.value;
    var payload := DirectPayload(d);
    if d.eventType == Some(IssueCommentEvent) {
      if d.action != CreatedAction || !d.issueIsPullRequest {
        return Stop(200, Message(CommentIgnored), trace);
      }
      var mention := Mention.ParseCommand(CommentText(d));
      if mention.None? {
        return Stop(200, Message(NoMention), trace);
      }
      if mention.value.name == SkipCommand {
        return Stop(200, Message(SkipAcknowledged), trace);
      }
      trace := trace + [FetchCall(d, r)];
      if env.fetched.None? {
        return Stop(500, Failure(FetchFailed), trace);
      }
      payload := PrPayload(OpenedAction, env.fetched.value, d.fullName, d.installationId, None, None);
      payload := payload.(reviewType := Some(mention.value.reviewType), triggeredBy := Some(MentionTrigger));
    }
    if payload.pullRequest.draft {
      return Stop(200, Message(DraftIgnored), trace);
    }
    trace := trace + [CheckAllowed(r.owner, r.repo)];
    if !env.allowed {
      return Stop(200, Message(NotAllowed), trace);
    }
    trace := trace + [CheckDuplicate(payload.fullName, payload.pullRequest.number, d.deliveryId)];
    if env.duplicate {
      return Stop(200, Message(DuplicateEvent), trace);
    }
    trace := trace + [CheckRateLimit(payload.installationId.GetOr(0))];
    if !env.rateOk {
      return Stop(429, Failure(RateLimited), trace);
    }
    var job := DispatchJob(payload, d.deliveryId);
    trace := trace + [SaveSnapshot(payload)];
    trace := trace + [Dispatch(job)];
    return Outcome(Response(200, Started(d.deliveryId)), Some(job), trace);
  }
}
