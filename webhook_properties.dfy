/**
 * Properties of the webhook pipeline: what each stage answers, which
 * collaborators it leaves untouched, and the ordering guarantees over the
 * trace of collaborator calls.
 */
module WebhookProperties {
  import opened Wrappers
  import opened Webhook
  import Mention
  import Repository

  /** An invalid signature is answered 401 before anything else is consulted. */
  lemma SignatureGate(d: Delivery, env: Collaborators, m: Option<Mention.Command>)
    requires !env.signatureValid
    ensures HandleDelivery(d, env, m) == Outcome(Response(401, Failure(InvalidSignature)), None, [VerifySignature])
  {
  }

  /** Any event type other than the three handled ones is ignored after the signature check. */
  lemma EventTypeFilter(d: Delivery, env: Collaborators, m: Option<Mention.Command>)
    requires env.signatureValid && !InScope(d.eventType)
    ensures HandleDelivery(d, env, m) == Outcome(Response(200, Message(EventIgnored)), None, [VerifySignature])
  {
  }

  /** A pull_request_review delivery is not filtered on its action or its requested reviewer. */
  lemma ReviewEventUnfiltered(d: Delivery, env: Collaborators, m: Option<Mention.Command>, action: string, reviewer: Option<Reviewer>)
    requires d.eventType == Some(ReviewEvent)
    ensures var o, o' := HandleDelivery(d, env, m), HandleDelivery(d.(action := action, requestedReviewer := reviewer), env, m);
            o'.response == o.response && o'.job.Some? == o.job.Some?
  {
    var d' := d.(action := action, requestedReviewer := reviewer);
    if env.signatureValid && Repository.OwnerAndRepo(d.fullName).Some? {
      GatesIgnoreAction(d, env, Repository.OwnerAndRepo(d.fullName).value, DirectPayload(d), action);
      assert DirectPayload(d') == DirectPayload(d).(action := action);
    }
  }

  /** The gates answer the same whatever action the payload carries. */
  lemma GatesIgnoreAction(d: Delivery, env: Collaborators, r: Repository.RepoRef, p: PrPayload, action: string)
    ensures var o, o' := Gates(d, env, r, p, [VerifySignature]), Gates(d, env, r, p.(action := action), [VerifySignature]);
            o'.response == o.response && o'.job.Some? == o.job.Some?
  {
  }

  /**
   * A pull_request delivery with a valid signature continues only for a review
   * request naming the bot; otherwise it gets one of two fixed replies.
   */
  lemma PullRequestFilter(d: Delivery, env: Collaborators, m: Option<Mention.Command>)
    requires env.signatureValid && d.eventType == Some(PullRequestEvent)
    ensures HandleDelivery(d, env, m).response == Response(200, Message(ActionIgnored)) <==> d.action != ReviewRequested
    ensures (HandleDelivery(d, env, m).response == Response(200, Message(NotForArgus)))
              <==> (d.action == ReviewRequested && !RequestsArgus(d.requestedReviewer))
    ensures (d.action != ReviewRequested || !RequestsArgus(d.requestedReviewer))
              ==> (HandleDelivery(d, env, m).job.None? && HandleDelivery(d, env, m).trace == [VerifySignature])
  {
  }

  /**
   * The repository name is checked for every handled event, before any
   * comment-specific check: a delivery that passed the earlier stages is
   * answered 400 exactly when the name has no non-empty owner and repository.
   */
  lemma RepositoryCheck(d: Delivery, env: Collaborators, m: Option<Mention.Command>)
    requires env.signatureValid && InScope(d.eventType)
    requires d.eventType == Some(PullRequestEvent) ==> d.action == ReviewRequested && RequestsArgus(d.requestedReviewer)
    ensures HandleDelivery(d, env, m).response.status == 400 <==> Repository.OwnerAndRepo(d.fullName).None?
    ensures Repository.OwnerAndRepo(d.fullName).None? ==>
              HandleDelivery(d, env, m) == Outcome(Response(400, Message(InvalidRepository)), None, [VerifySignature])
  {
  }

  /** A delivery that reaches the comment trigger: a valid issue_comment with a well-formed repository name. */
  predicate ReachesComment(d: Delivery, env: Collaborators) {
    env.signatureValid && d.eventType == Some(IssueCommentEvent) && Repository.OwnerAndRepo(d.fullName).Some?
  }

  /** Only a newly created comment on a pull request is read. */
  lemma CommentFilter(d: Delivery, env: Collaborators, m: Option<Mention.Command>)
    requires ReachesComment(d, env)
    requires d.action != CreatedAction || !d.issueIsPullRequest
    ensures HandleDelivery(d, env, m) == Outcome(Response(200, Message(CommentIgnored)), None, [VerifySignature])
  {
  }

  /** A comment in which the mention pattern matches nowhere is answered without consulting anyone. */
  lemma NoMentionIgnored(d: Delivery, env: Collaborators)
    requires ReachesComment(d, env) && d.action == CreatedAction && d.issueIsPullRequest
    requires var c := CommentText(d);
             forall k, g :: 0 <= k <= |c| ==> !Mention.Matches(Mention.MentionPattern, c, k, g)
    ensures HandleWebhook(d, env) == Outcome(Response(200, Message(NoMention)), None, [VerifySignature])
  {
    Mention.MentionPatternWellFormed();
    Mention.FirstMatchLeftmost(Mention.MentionPattern, CommentText(d));
  }

  /** `skip` is acknowledged without fetching the pull request and without a job. */
  lemma SkipAcknowledgedOnly(d: Delivery, env: Collaborators, m: Option<Mention.Command>)
    requires ReachesComment(d, env) && d.action == CreatedAction && d.issueIsPullRequest
    requires m.Some? && m.value.name == SkipCommand
    ensures HandleDelivery(d, env, m) == Outcome(Response(200, Message(SkipAcknowledged)), None, [VerifySignature])
  {
  }

  /** `review` fetches the pull request; when the fetch fails the reply is 500 and nothing else happens. */
  lemma FetchFailure(d: Delivery, env: Collaborators, m: Option<Mention.Command>)
    requires ReachesComment(d, env) && d.action == CreatedAction && d.issueIsPullRequest
    requires m.Some? && m.value.name != SkipCommand
    requires env.fetched.None?
    ensures HandleDelivery(d, env, m) == Outcome(Response(500, Failure(FetchFailed)), None, [VerifySignature, FetchCall(d, Repository.OwnerAndRepo(d.fullName).value)])
  {
  }

  /**
   * A `review` mention whose fetch succeeds continues with the fetched pull
   * request in place of the comment payload: action `opened`, the parsed review
   * type, and `mention` as the trigger.
   */
  lemma MentionReview(d: Delivery, env: Collaborators, m: Option<Mention.Command>)
    requires ReachesComment(d, env) && d.action == CreatedAction && d.issueIsPullRequest
    requires m.Some? && m.value.name != SkipCommand
    requires env.fetched.Some?
    ensures var o := HandleDelivery(d, env, m);
            |o.trace| >= 2 && o.trace[1] == FetchCall(d, Repository.OwnerAndRepo(d.fullName).value)
            && (o.job.Some? ==> o.job.value.payload == MentionPayload(d, env.fetched.value, m.value.reviewType))
            && (o.job.Some? <==> !env.fetched.value.draft && env.allowed && !env.duplicate && env.rateOk)
  {
  }

  /** On the comment trigger the payload's own `pull_request` is never read. */
  lemma CommentIgnoresPayloadPullRequest(d: Delivery, env: Collaborators, m: Option<Mention.Command>, pr: PullRequest)
    requires d.eventType == Some(IssueCommentEvent)
    ensures HandleDelivery(d.(pullRequest := pr), env, m) == HandleDelivery(d, env, m)
  {
    if env.signatureValid && Repository.OwnerAndRepo(d.fullName).Some? {
      CommentTriggerIgnoresPullRequest(d, env, Repository.OwnerAndRepo(d.fullName).value, m, pr);
    }
  }

  lemma CommentTriggerIgnoresPullRequest(d: Delivery, env: Collaborators, r: Repository.RepoRef,
                                         m: Option<Mention.Command>, pr: PullRequest)
    ensures CommentTrigger(d.(pullRequest := pr), env, r, m) == CommentTrigger(d, env, r, m)
  {
  }

  /** `t + u` consults a stage exactly when `t` or `u` does. */
  lemma ConsultedAppend(t: seq<Call>, u: seq<Call>, s: Stage)
    ensures Consulted(t + u, s) <==> Consulted(t, s) || Consulted(u, s)
  {
    if Consulted(t + u, s) {
      var i :| 0 <= i < |t + u| && (t + u)[i].Stage() == s;
      if i >= |t| {
        assert u[i - |t|] == (t + u)[i];
      }
    }
    if Consulted(t, s) {
      var i :| 0 <= i < |t| && t[i].Stage() == s;
      assert (t + u)[i] == t[i];
    }
    if Consulted(u, s) {
      var i :| 0 <= i < |u| && u[i].Stage() == s;
      assert (t + u)[|t| + i] == u[i];
    }
  }

  /** The calls a gate makes carry the keys the handler passes at lines 192, 206-211, 218, 226 and 233. */
  predicate KeyedBy(c: Call, d: Delivery, r: Repository.RepoRef, p: PrPayload) {
    match c
    case CheckAllowed(owner, repo) => owner == r.owner && repo == r.repo
    case CheckDuplicate(fullName, number, id) => fullName == p.fullName && number == p.pullRequest.number && id == d.deliveryId
    case CheckRateLimit(installation) => installation == p.installationId.GetOr(0)
    case SaveSnapshot(q) => q == p
    case Dispatch(job) => job == DispatchJob(p, d.deliveryId)
    case _ => false
  }

  /** The five calls the gates can make, in the order they make them. */
  function GateCalls(d: Delivery, r: Repository.RepoRef, p: PrPayload): (calls: seq<Call>)
    ensures |calls| == 5 && forall i :: 0 <= i < 5 ==> calls[i].Stage().Index() == i + 2
  {
    [CheckAllowed(r.owner, r.repo), CheckDuplicate(p.fullName, p.pullRequest.number, d.deliveryId),
     CheckRateLimit(p.installationId.GetOr(0)), SaveSnapshot(p), Dispatch(DispatchJob(p, d.deliveryId))]
  }

  /** How many of the gate calls are made: the gates stop at the first refusal. */
  function GatesReached(env: Collaborators, p: PrPayload): nat {
    if p.pullRequest.draft then 0
    else if !env.allowed then 1
    else if env.duplicate then 2
    else if !env.rateOk then 3
    else 5
  }

  /** The gates append a prefix of their calls to the trace, and start a job only after all of them. */
  lemma GatesTrace(d: Delivery, env: Collaborators, r: Repository.RepoRef, p: PrPayload, trace: seq<Call>)
    requires |trace| >= 1 && trace[0] == VerifySignature
    requires InOrder(trace) && AllBefore(trace, AllowListCheck.Index())
    ensures Gates(d, env, r, p, trace).trace == trace + GateCalls(d, r, p)[..GatesReached(env, p)]
    ensures Gates(d, env, r, p, trace).job.Some? <==> GatesReached(env, p) == 5
  {
    var calls := GateCalls(d, r, p);
    assert calls[..1] == [calls[0]];
    assert calls[..2] == [calls[0]] + [calls[1]];
    assert calls[..3] == [calls[0]] + [calls[1]] + [calls[2]];
    assert calls[..5] == [calls[0]] + [calls[1]] + [calls[2]] + [calls[3]] + [calls[4]];
  }

  /** A prefix of the gate calls consults exactly the stages it is long enough to reach. */
  lemma GateCallsConsult(d: Delivery, r: Repository.RepoRef, p: PrPayload, n: nat, s: Stage)
    requires n <= 5
    ensures Consulted(GateCalls(d, r, p)[..n], s) <==> 2 <= s.Index() < n + 2
  {
    var calls := GateCalls(d, r, p);
    if 2 <= s.Index() < n + 2 {
      assert calls[..n][s.Index() - 2] == calls[s.Index() - 2];
    }
  }

  /**
   * The gates consult the stores in order and stop at the first refusal: each
   * store is asked exactly when every earlier gate let the delivery through,
   * and a job is started exactly when all of them did.
   */
  lemma GatesConsult(d: Delivery, env: Collaborators, r: Repository.RepoRef, p: PrPayload, trace: seq<Call>)
    requires |trace| >= 1 && trace[0] == VerifySignature
    requires InOrder(trace) && AllBefore(trace, AllowListCheck.Index())
    ensures var o := Gates(d, env, r, p, trace);
            var draft := p.pullRequest.draft;
            && (Consulted(o.trace, PullRequestFetch) <==> Consulted(trace, PullRequestFetch))
            && (Consulted(o.trace, AllowListCheck) <==> !draft)
            && (Consulted(o.trace, DuplicateCheck) <==> !draft && env.allowed)
            && (Consulted(o.trace, RateLimitCheck) <==> !draft && env.allowed && !env.duplicate)
            && (Consulted(o.trace, DebugSnapshot) <==> o.job.Some?)
            && (Consulted(o.trace, JobDispatch) <==> o.job.Some?)
            && (o.job.Some? <==> !draft && env.allowed && !env.duplicate && env.rateOk)
            && |o.trace| >= |trace| && o.trace[..|trace|] == trace
            && (forall i :: |trace| <= i < |o.trace| ==> KeyedBy(o.trace[i], d, r, p))
  {
    GatesTrace(d, env, r, p, trace);
    PrefixConsult(d, r, p, trace, GatesReached(env, p));
  }

  /** What the trace says once the gates have made their first `n` calls. */
  lemma PrefixConsult(d: Delivery, r: Repository.RepoRef, p: PrPayload, trace: seq<Call>, n: nat)
    requires AllBefore(trace, AllowListCheck.Index()) && n <= 5
    ensures var t := trace + GateCalls(d, r, p)[..n];
            && (Consulted(t, PullRequestFetch) <==> Consulted(trace, PullRequestFetch))
            && (Consulted(t, AllowListCheck) <==> n >= 1)
            && (Consulted(t, DuplicateCheck) <==> n >= 2)
            && (Consulted(t, RateLimitCheck) <==> n >= 3)
            && (Consulted(t, DebugSnapshot) <==> n >= 4)
            && (Consulted(t, JobDispatch) <==> n >= 5)
            && |t| >= |trace| && t[..|trace|] == trace
            && (forall i :: |trace| <= i < |t| ==> KeyedBy(t[i], d, r, p))
  {
    var calls := GateCalls(d, r, p);
    var t := trace + calls[..n];
    forall s: Stage
      ensures Consulted(t, s) <==> Consulted(trace, s) || 2 <= s.Index() < n + 2
    {
      ConsultedAppend(trace, calls[..n], s);
      GateCallsConsult(d, r, p, n, s);
    }
    assert !Consulted(trace, AllowListCheck) && !Consulted(trace, DuplicateCheck) && !Consulted(trace, RateLimitCheck);
    assert !Consulted(trace, DebugSnapshot) && !Consulted(trace, JobDispatch);
    assert t[..|trace|] == trace;
    forall i | |trace| <= i < |t|
      ensures KeyedBy(t[i], d, r, p)
    {
      assert t[i] == calls[i - |trace|];
    }
  }

  /** A trace of stages before `n` consults no stage from `n` on. */
  lemma NotYetConsulted(trace: seq<Call>, n: nat, s: Stage)
    requires AllBefore(trace, n) && n <= s.Index()
    ensures !Consulted(trace, s)
  {
  }

  /** The pull request under review: the fetched one on the comment trigger, the payload's own otherwise. */
  function ReviewedPullRequest(d: Delivery, env: Collaborators): Option<PullRequest> {
    if d.eventType == Some(IssueCommentEvent) then env.fetched else Some(d.pullRequest)
  }

  /** Where a delivery enters the gates: the split name, the payload under review, and the calls made so far. */
  datatype Entry = Entry(r: Repository.RepoRef, p: PrPayload, trace: seq<Call>)

  /** The entry into the gates of a delivery that passes every earlier stage, or `None`. */
  function GateEntry(d: Delivery, env: Collaborators, m: Option<Mention.Command>): Option<Entry> {
    if !env.signatureValid || !InScope(d.eventType) then None
    else if d.eventType == Some(PullRequestEvent) && (d.action != ReviewRequested || !RequestsArgus(d.requestedReviewer)) then None
    else
      match Repository.OwnerAndRepo(d.fullName)
      case None => None
      case Some(r) =>
        if d.eventType != Some(IssueCommentEvent) then Some(Entry(r, DirectPayload(d), [VerifySignature]))
        else if d.action != CreatedAction || !d.issueIsPullRequest || m.None? || m.value.name == SkipCommand || env.fetched.None? then None
        else Some(Entry(r, MentionPayload(d, env.fetched.value, m.value.reviewType), [VerifySignature, FetchCall(d, r)]))
  }

  /** A delivery that enters the gates is answered by them; one that does not consults no store. */
  lemma GateEntryOutcome(d: Delivery, env: Collaborators, m: Option<Mention.Command>)
    ensures GateEntry(d, env, m).Some? ==>
              var e := GateEntry(d, env, m).value;
              && |e.trace| >= 1 && e.trace[0] == VerifySignature && InOrder(e.trace)
              && AllBefore(e.trace, AllowListCheck.Index())
              && e.p.fullName == d.fullName && e.p.installationId == d.installationId
              && Repository.OwnerAndRepo(d.fullName) == Some(e.r)
              && Some(e.p.pullRequest) == ReviewedPullRequest(d, env)
              && (e.trace == [VerifySignature] || (ReachesComment(d, env) && e.trace == [VerifySignature, FetchCall(d, e.r)]))
              && HandleDelivery(d, env, m) == Gates(d, env, e.r, e.p, e.trace)
    ensures GateEntry(d, env, m).None? ==>
              var t := HandleDelivery(d, env, m).trace;
              && AllBefore(t, AllowListCheck.Index()) && HandleDelivery(d, env, m).job.None?
              && (t == [VerifySignature] || (ReachesComment(d, env) && t == [VerifySignature, FetchCall(d, Repository.OwnerAndRepo(d.fullName).value)]))
              && EarlyReply(HandleDelivery(d, env, m).response)
  {
    if ReachesComment(d, env) {
      CommentEntry(d, env, Repository.OwnerAndRepo(d.fullName).value, m);
    } else if GateEntry(d, env, m).Some? {
      DirectEntry(d, env, m);
    } else {
      EarlyEnd(d, env, m);
    }
  }

  /** A pull_request or pull_request_review delivery, or one of another type, that a filter stops. */
  lemma EarlyEnd(d: Delivery, env: Collaborators, m: Option<Mention.Command>)
    requires GateEntry(d, env, m).None? && !ReachesComment(d, env)
    ensures HandleDelivery(d, env, m).trace == [VerifySignature]
    ensures HandleDelivery(d, env, m).job.None?
    ensures EarlyReply(HandleDelivery(d, env, m).response)
  {
  }

  /** A pull_request or pull_request_review delivery that passes the filters enters the gates with its own payload. */
  lemma DirectEntry(d: Delivery, env: Collaborators, m: Option<Mention.Command>)
    requires GateEntry(d, env, m).Some? && d.eventType != Some(IssueCommentEvent)
    ensures GateEntry(d, env, m) == Some(Entry(Repository.OwnerAndRepo(d.fullName).value, DirectPayload(d), [VerifySignature]))
    ensures HandleDelivery(d, env, m) == Gates(d, env, Repository.OwnerAndRepo(d.fullName).value, DirectPayload(d), [VerifySignature])
  {
  }

  /** The comment trigger enters the gates exactly when `GateEntry` says, and otherwise consults no store. */
  lemma CommentEntry(d: Delivery, env: Collaborators, r: Repository.RepoRef, m: Option<Mention.Command>)
    requires ReachesComment(d, env) && Repository.OwnerAndRepo(d.fullName) == Some(r)
    ensures HandleDelivery(d, env, m) == CommentTrigger(d, env, r, m)
    ensures GateEntry(d, env, m).Some? ==>
              && GateEntry(d, env, m).value.trace == [VerifySignature, FetchCall(d, r)]
              && InOrder([VerifySignature, FetchCall(d, r)])
              && HandleDelivery(d, env, m) == Gates(d, env, r, GateEntry(d, env, m).value.p, [VerifySignature, FetchCall(d, r)])
    ensures GateEntry(d, env, m).None? ==>
              var t := HandleDelivery(d, env, m).trace;
              && AllBefore(t, AllowListCheck.Index()) && HandleDelivery(d, env, m).job.None?
              && (t == [VerifySignature] || t == [VerifySignature, FetchCall(d, r)])
              && EarlyReply(HandleDelivery(d, env, m).response)
  {
    var fetch := FetchCall(d, r);
    if d.action != CreatedAction || !d.issueIsPullRequest || m.None? || m.value.name == SkipCommand {
      assert CommentTrigger(d, env, r, m).trace == [VerifySignature];
    } else if env.fetched.None? {
      assert CommentTrigger(d, env, r, m).trace == [VerifySignature, fetch];
    } else {
      AppendInOrder([VerifySignature], fetch);
      assert [VerifySignature] + [fetch] == [VerifySignature, fetch];
    }
  }

  /**
   * The stores are consulted in the handler's order and each only when every
   * earlier stage let the delivery through: the allow-list for a delivery that
   * entered the gates with a non-draft pull request, the duplicate store only
   * for an allowed repository, the rate limiter only for a new event, and the
   * snapshot and the dispatch only for an accepted one.
   */
  lemma StoresConsulted(d: Delivery, env: Collaborators, m: Option<Mention.Command>)
    ensures var o, e := HandleDelivery(d, env, m), GateEntry(d, env, m);
            var open := e.Some? && !e.value.p.pullRequest.draft;
            && (Consulted(o.trace, AllowListCheck) <==> open)
            && (Consulted(o.trace, DuplicateCheck) <==> open && env.allowed)
            && (Consulted(o.trace, RateLimitCheck) <==> open && env.allowed && !env.duplicate)
            && (Consulted(o.trace, DebugSnapshot) <==> o.job.Some?)
            && (Consulted(o.trace, JobDispatch) <==> o.job.Some?)
            && (o.job.Some? <==> open && env.allowed && !env.duplicate && env.rateOk)
  {
    GateEntryOutcome(d, env, m);
    var o := HandleDelivery(d, env, m);
    if GateEntry(d, env, m).Some? {
      var e := GateEntry(d, env, m).value;
      GatesConsult(d, env, e.r, e.p, e.trace);
    } else {
      NotYetConsulted(o.trace, AllowListCheck.Index(), AllowListCheck);
      NotYetConsulted(o.trace, AllowListCheck.Index(), DuplicateCheck);
      NotYetConsulted(o.trace, AllowListCheck.Index(), RateLimitCheck);
      NotYetConsulted(o.trace, AllowListCheck.Index(), DebugSnapshot);
      NotYetConsulted(o.trace, AllowListCheck.Index(), JobDispatch);
    }
  }

  /** A duplicate delivery is never charged against the rate limit and never reviewed. */
  lemma DuplicateNeverRateLimited(d: Delivery, env: Collaborators, m: Option<Mention.Command>)
    requires env.duplicate
    ensures !Consulted(HandleDelivery(d, env, m).trace, RateLimitCheck) && HandleDelivery(d, env, m).job.None?
  {
    StoresConsulted(d, env, m);
  }

  /** A draft pull request that reaches the gates is dropped before any store is asked. */
  lemma DraftDropped(d: Delivery, env: Collaborators, m: Option<Mention.Command>)
    requires GateEntry(d, env, m).Some? && GateEntry(d, env, m).value.p.pullRequest.draft
    ensures var o := HandleDelivery(d, env, m);
            o.response == Response(200, Message(DraftIgnored)) && o.job.None?
            && o.trace == GateEntry(d, env, m).value.trace
  {
    GateEntryOutcome(d, env, m);
  }

  /**
   * The keys the handler passes to its collaborators (lines 147-155, 192,
   * 206-211, 218 and 233): the owner and repository split from the full name,
   * the issue number, the installation id or 0, the full name with the
   * reviewed pull request's number, and the delivery id.
   */
  predicate KeyedByDelivery(c: Call, d: Delivery, env: Collaborators) {
    match c
    case VerifySignature => true
    case FetchPullRequest(owner, repo, number, installation) =>
      Repository.OwnerAndRepo(d.fullName) == Some(Repository.RepoRef(owner, repo))
      && number == d.issueNumber && installation == d.installationId.GetOr(0)
    case CheckAllowed(owner, repo) => Repository.OwnerAndRepo(d.fullName) == Some(Repository.RepoRef(owner, repo))
    case CheckDuplicate(fullName, number, id) =>
      fullName == d.fullName && id == d.deliveryId
      && ReviewedPullRequest(d, env).Some? && number == ReviewedPullRequest(d, env).value.number
    case CheckRateLimit(installation) => installation == d.installationId.GetOr(0)
    case SaveSnapshot(p) => p.fullName == d.fullName && Some(p.pullRequest) == ReviewedPullRequest(d, env)
    case Dispatch(job) => job.deliveryId == d.deliveryId && Some(job.payload.pullRequest) == ReviewedPullRequest(d, env)
  }

  /** Every collaborator call the handler makes carries the delivery's own keys. */
  lemma StoreKeys(d: Delivery, env: Collaborators, m: Option<Mention.Command>)
    ensures var o := HandleDelivery(d, env, m);
            forall i :: 0 <= i < |o.trace| ==> KeyedByDelivery(o.trace[i], d, env)
  {
    if GateEntry(d, env, m).Some? {
      GatedKeys(d, env, m);
    } else {
      GateEntryOutcome(d, env, m);
    }
  }

  /** The calls made before the gates carry the delivery's keys. */
  lemma EntryKeys(d: Delivery, env: Collaborators, m: Option<Mention.Command>)
    requires GateEntry(d, env, m).Some?
    ensures var t := GateEntry(d, env, m).value.trace;
            forall i :: 0 <= i < |t| ==> KeyedByDelivery(t[i], d, env)
  {
    GateEntryOutcome(d, env, m);
  }

  /** A delivery that enters the gates: the entry calls and the gate calls carry its keys. */
  lemma GatedKeys(d: Delivery, env: Collaborators, m: Option<Mention.Command>)
    requires GateEntry(d, env, m).Some?
    ensures var o := HandleDelivery(d, env, m);
            forall i :: 0 <= i < |o.trace| ==> KeyedByDelivery(o.trace[i], d, env)
  {
    var e := GateEntry(d, env, m).value;
    GateEntryOutcome(d, env, m);
    EntryKeys(d, env, m);
    GatesConsult(d, env, e.r, e.p, e.trace);
    var o := HandleDelivery(d, env, m);
    forall i | 0 <= i < |o.trace|
      ensures KeyedByDelivery(o.trace[i], d, env)
    {
      if i < |e.trace| {
        assert o.trace[i] == o.trace[..|e.trace|][i] == e.trace[i];
      } else {
        assert KeyedBy(o.trace[i], d, e.r, e.p);
      }
    }
  }

  /** The pull request is fetched exactly for a `review` mention in a new comment on a pull request. */
  lemma FetchOnlyForReview(d: Delivery, env: Collaborators, m: Option<Mention.Command>)
    ensures Consulted(HandleDelivery(d, env, m).trace, PullRequestFetch) <==>
              ReachesComment(d, env) && d.action == CreatedAction && d.issueIsPullRequest
              && m.Some? && m.value.name != SkipCommand
  {
    GateEntryOutcome(d, env, m);
    var t := HandleDelivery(d, env, m).trace;
    var review := ReachesComment(d, env) && d.action == CreatedAction && d.issueIsPullRequest
                  && m.Some? && m.value.name != SkipCommand;
    var entry := if GateEntry(d, env, m).Some? then GateEntry(d, env, m).value.trace else t;
    if GateEntry(d, env, m).Some? {
      var e := GateEntry(d, env, m).value;
      GatesConsult(d, env, e.r, e.p, e.trace);
    }
    if review {
      CommentEntry(d, env, Repository.OwnerAndRepo(d.fullName).value, m);
      assert entry == [VerifySignature, FetchCall(d, Repository.OwnerAndRepo(d.fullName).value)];
      assert entry[1].Stage() == PullRequestFetch;
    } else {
      if ReachesComment(d, env) {
        CommentEntry(d, env, Repository.OwnerAndRepo(d.fullName).value, m);
      }
      assert entry == [VerifySignature];
    }
  }

  /**
   * End to end: a new comment `@argus-ai-assistant review security` on a pull
   * request that passes every gate starts a security review of the fetched
   * pull request.
   */
  lemma SecurityReviewDispatched(d: Delivery, env: Collaborators)
    requires ReachesComment(d, env) && d.action == CreatedAction && d.issueIsPullRequest
    requires d.commentBody == Some(Mention.SecurityReviewComment)
    requires env.fetched.Some? && !env.fetched.value.draft && env.allowed && !env.duplicate && env.rateOk
    ensures HandleWebhook(d, env).response == Response(200, Started(d.deliveryId))
    ensures HandleWebhook(d, env).job == Some(DispatchJob(MentionPayload(d, env.fetched.value, "security"), d.deliveryId))
  {
    var c := Some(Mention.Command("review", "security"));
    Mention.SecurityReviewExample(CommentText(d));
    assert HandleWebhook(d, env) == HandleDelivery(d, env, c);
    MentionReview(d, env, c);
  }

  /** A trace in stage order holds at most one dispatch: the review is started at most once. */
  lemma SingleDispatch(d: Delivery, env: Collaborators, m: Option<Mention.Command>, i: nat, j: nat)
    requires var t := HandleDelivery(d, env, m).trace;
             i < |t| && j < |t| && t[i].Dispatch? && t[j].Dispatch?
    ensures i == j
  {
    OneDispatch(HandleDelivery(d, env, m).trace, i, j);
  }

  /** Calls of a trace in stage order belong to distinct stages, so two dispatches are one. */
  lemma OneDispatch(t: seq<Call>, i: nat, j: nat)
    requires InOrder(t) && i < |t| && j < |t| && t[i].Dispatch? && t[j].Dispatch?
    ensures i == j
  {
    assert t[i].Stage() == t[j].Stage() == JobDispatch;
  }

  /** The replies of the stages before the gates. */
  predicate EarlyReply(r: Response) {
    || r == Response(401, Failure(InvalidSignature))
    || r == Response(200, Message(EventIgnored))
    || r == Response(200, Message(ActionIgnored))
    || r == Response(200, Message(NotForArgus))
    || r == Response(400, Message(InvalidRepository))
    || r == Response(200, Message(CommentIgnored))
    || r == Response(200, Message(NoMention))
    || r == Response(200, Message(SkipAcknowledged))
    || r == Response(500, Failure(FetchFailed))
  }

  /** The replies of the gates. */
  predicate GateReply(r: Response, d: Delivery) {
    || r == Response(200, Message(DraftIgnored))
    || r == Response(200, Message(NotAllowed))
    || r == Response(200, Message(DuplicateEvent))
    || r == Response(429, Failure(RateLimited))
    || r == Response(200, Started(d.deliveryId))
  }

  /** Every delivery gets one of the fixed replies: an earlier stage's exactly when it does not enter the gates. */
  lemma RepliesFixed(d: Delivery, env: Collaborators, m: Option<Mention.Command>)
    ensures var r := HandleDelivery(d, env, m).response;
            && (GateEntry(d, env, m).None? ==> EarlyReply(r) && !GateReply(r, d))
            && (GateEntry(d, env, m).Some? ==> GateReply(r, d) && !EarlyReply(r))
  {
    GateEntryOutcome(d, env, m);
  }

  /**
   * Each gate's refusal has its own reply, at the level of the whole handler:
   * a draft that enters the gates gets `Draft PR ignored`, a repository off the
   * list `Repository not on allowed list`, a duplicate `Duplicate event`, and a
   * rate-limited delivery 429 `Rate limit exceeded`, and each reply is given
   * only in its case.
   */
  lemma GateReplies(d: Delivery, env: Collaborators, m: Option<Mention.Command>)
    ensures var r, e := HandleDelivery(d, env, m).response, GateEntry(d, env, m);
            var open := e.Some? && !e.value.p.pullRequest.draft;
            && (r == Response(200, Message(DraftIgnored)) <==> e.Some? && e.value.p.pullRequest.draft)
            && (r == Response(200, Message(NotAllowed)) <==> open && !env.allowed)
            && (r == Response(200, Message(DuplicateEvent)) <==> open && env.allowed && env.duplicate)
            && (r == Response(429, Failure(RateLimited)) <==> open && env.allowed && !env.duplicate && !env.rateOk)
  {
    GateEntryOutcome(d, env, m);
  }

  /**
   * From the comment text to the reply: a new comment on a pull request whose
   * leftmost mention spells `skip` is acknowledged, with no fetch and no job.
   */
  lemma SkipMentionAcknowledged(d: Delivery, env: Collaborators, k: nat, g: Mention.Groups)
    requires ReachesComment(d, env) && d.action == CreatedAction && d.issueIsPullRequest
    requires Mention.Matches(Mention.MentionPattern, CommentText(d), k, g)
    requires forall j, h :: 0 <= j < k ==> !Mention.Matches(Mention.MentionPattern, CommentText(d), j, h)
    requires Mention.AlternativeAt(CommentText(d), g.command.start, Mention.Commands, 1)
    ensures HandleWebhook(d, env) == Outcome(Response(200, Message(SkipAcknowledged)), None, [VerifySignature])
    ensures !Consulted(HandleWebhook(d, env).trace, PullRequestFetch)
  {
    var m := Mention.ParseCommand(CommentText(d));
    Mention.LeftmostMentionParsed(CommentText(d), k, g, 1);
    assert m.value.name == SkipCommand;
    SkipAcknowledgedOnly(d, env, m);
  }

  /**
   * From the comment text to the job: a leftmost mention spelling `review`,
   * with scope word number `y` or none, on a pull request that passes every
   * gate, starts a review of that type (`full` without a scope) of the fetched
   * pull request.
   */
  lemma ReviewMentionDispatched(d: Delivery, env: Collaborators, k: nat, g: Mention.Groups, y: nat)
    requires ReachesComment(d, env) && d.action == CreatedAction && d.issueIsPullRequest
    requires Mention.Matches(Mention.MentionPattern, CommentText(d), k, g)
    requires forall j, h :: 0 <= j < k ==> !Mention.Matches(Mention.MentionPattern, CommentText(d), j, h)
    requires Mention.AlternativeAt(CommentText(d), g.command.start, Mention.Commands, 0)
    requires g.scope.Some? ==> Mention.AlternativeAt(CommentText(d), g.scope.value.start, Mention.Scopes, y)
    requires env.fetched.Some? && !env.fetched.value.draft && env.allowed && !env.duplicate && env.rateOk
    ensures var t := if g.scope.None? then Mention.DefaultScope else Mention.Scopes[y];
            HandleWebhook(d, env).job == Some(DispatchJob(MentionPayload(d, env.fetched.value, t), d.deliveryId))
  {
    var m := Mention.ParseCommand(CommentText(d));
    Mention.LeftmostMentionParsed(CommentText(d), k, g, 0);
    assert m.value.name != SkipCommand;
    MentionReview(d, env, m);
  }
}
