# ArgusAI webhook handler — accept/reject pipeline

This project models `webhookHandler`, the GitHub webhook endpoint of the ArgusAI
review bot (`src/handlers/webhook.ts`). A delivery goes through a fixed chain of stages:

1. the signature check;
2. the event-type filter;
3. the `pull_request` action and requested-reviewer filter;
4. the repository-name split;
5. the `issue_comment` trigger: the pull-request check, the `@argus-ai-assistant` mention parse, `skip` or `review`, and the pull-request fetch;
6. the draft filter;
7. the allow-list;
8. the duplicate store;
9. the rate limiter;
10. the debug snapshot;
11. the one background review.

Each stage either lets the delivery through or ends it with a fixed status and message.
Collaborator answers are inputs (`Collaborators`). Every call the handler makes to a
collaborator is recorded, with its arguments, in an ordered trace. This lets the
ordering properties be stated, such as "a duplicate never reaches the rate limiter"
and "`skip` never fetches".

Modules:

- `Wrappers`: `Option`.
- `Text`: the JavaScript `\s` class, ASCII case folding, `includes`, and whitespace runs.
- `Mention`: the mention pattern
  `/@argus-ai-assistant\s+(review|skip)(?:\s+(security|performance|style))?/i`. It is a
  hand-written scanner (`MatchAt`, `FirstMatchIndex`). It is proved equal to a declarative
  reference meaning of the pattern (`Matches`) at every index, in both directions, and
  the search is proved to report the leftmost match.
- `Repository`: `full_name.split('/')` with the first two pieces taken as owner and
  repository. `Split` is proved inverse to `Join`, and the accepted names are
  characterised exactly.
- `Webhook`: the data model and the pipeline.
  - `HandleDelivery` is the whole pipeline, given the command parsed from the comment body.
  - `HandleWebhook` composes it with `Mention.ParseCommand`.
  - `WebhookHandler` is the handler's own step-by-step control flow. It has early returns, the
    working `payload` is reassigned to the pull-request event built from a mention, and
    its `reviewType`/`triggeredBy` fields are then written. It is proved equal to `HandleWebhook`.
- `WebhookProperties`: what each stage answers, and the ordering and key properties of the trace.
  Most lemmas hold for every parse result `m`, so in particular for the one
  `HandleWebhook` uses.

## Model

| member | source | states |
|---|---|---|
| Text.LowerAt | src/handlers/webhook.ts:131-132 | `toLowerCase` on ASCII text lowers character by character |
| Text.Contains | src/handlers/webhook.ts:89 | `includes`: the text occurs at some index, case-sensitively |
| Text.WhitespaceRun | src/handlers/webhook.ts:123 | greedy `\s+`: the run from `j` is all whitespace, stays inside the text, and is followed by a non-whitespace character or the end |
| Text.WhitespaceRunUnique | src/handlers/webhook.ts:123 | a whitespace run that ends before a non-whitespace character is exactly the greedy run |
| Text.LowerOfCiWord | src/handlers/webhook.ts:131-132 | the text of a case-insensitive occurrence of a lower-case word lowers to that word |
| Mention.MentionPatternWellFormed | src/handlers/webhook.ts:123 | both alternations of the handler's pattern are word lists: non-empty, lower-case initial, none a prefix of another |
| Mention.FirstAlternative | src/handlers/webhook.ts:123 | the alternation tries words in pattern order: the result matches at the index, and no alternative from `x` on matches when there is none |
| Mention.SpacedWordSound | src/handlers/webhook.ts:123 | what the `\s+(word)` scan reports is a non-empty whitespace run followed by one of the words |
| Mention.SpacedWordComplete | src/handlers/webhook.ts:123 | every whitespace-then-word split is the one the scan reports |
| Mention.ScopeMatchesUnique | src/handlers/webhook.ts:123 | the optional scope group has one meaning at an index, and it is what the scan reports |
| Mention.ScopeScanSound | src/handlers/webhook.ts:123 | the optional scope group is greedy: taken whenever `\s+(scope)` can match, absent only when it cannot |
| Mention.MatchAt | src/handlers/webhook.ts:122-123 | the pattern anchored at an index; reported capture groups lie inside the text |
| Mention.MatchAtSound | src/handlers/webhook.ts:122-123 | a match the scanner reports satisfies the pattern's reference meaning |
| Mention.MatchAtComplete | src/handlers/webhook.ts:122-123 | every match of the reference meaning at an index is the one the scanner reports |
| Mention.MatchAtIff | src/handlers/webhook.ts:122-123 | scanner and reference meaning agree at every index, both directions |
| Mention.FirstMatchIndex | src/handlers/webhook.ts:124 | `match` reports the leftmost index with a match: it matches there, and nowhere earlier |
| Mention.NoMatchAt | src/handlers/webhook.ts:124 | where the scanner reports nothing the pattern does not match |
| Mention.FirstMatchLeftmost | src/handlers/webhook.ts:124-129 | the search finds a match iff the pattern matches somewhere; what it finds is a match with no match earlier |
| Mention.ParseMention | src/handlers/webhook.ts:124 | `comment.match`: the groups of the leftmost match, covering one of the commands and, if present, one of the scopes |
| Mention.LowerOfWordSpan | src/handlers/webhook.ts:131-132 | a group that covers one of the words lowers to a member of the word list |
| Mention.ReviewType | src/handlers/webhook.ts:132 | the second group lowered, or `full` when there is none; always `full` or one of the three scopes |
| Mention.ParseCommand | src/handlers/webhook.ts:124-132 | a command exists iff the comment mentions the bot; its name is `review` or `skip`; its type is `full` or a scope |
| Mention.LeftmostMentionFound | src/handlers/webhook.ts:124 | a match of the pattern with no match earlier is the one `match` reports |
| Mention.GroupWord | src/handlers/webhook.ts:131-132 | a group that covers alternative `x` lowers to exactly that word |
| Mention.LeftmostMentionParsed | src/handlers/webhook.ts:124-132 | the parsed name is the command the leftmost match spells; the type is the scope it spells, or `full` when it has none |
| Mention.SecurityReviewExample | src/handlers/webhook.ts:122-132 | `@argus-ai-assistant review security` parses to command `review`, type `security` |
| Mention.RunOnCommandMatches | src/handlers/webhook.ts:122-132 | with no word boundary, `@Argus-AI-Assistant reviewer` parses to `review` with type `full` |
| Repository.Split | src/handlers/webhook.ts:100 | `split('/')` gives at least one piece, no piece holds a slash, and joining the pieces gives back the name |
| Repository.SplitJoin | src/handlers/webhook.ts:100 | splitting a join of slash-free pieces gives the pieces back |
| Repository.SplitAfterPiece | src/handlers/webhook.ts:100 | a slash-free prefix and a slash split off as the first piece |
| Repository.OwnerAndRepo | src/handlers/webhook.ts:100-101 | an accepted name is `owner/repo` or `owner/repo/rest` with non-empty slash-free owner and repo |
| Repository.OwnerAndRepoComplete | src/handlers/webhook.ts:100-101 | every name of that form is accepted with its own owner and repo |
| Repository.OwnerAndRepoWithRest | src/handlers/webhook.ts:100 | pieces after the repository are ignored |
| Repository.OwnerAndRepoRefused | src/handlers/webhook.ts:100-106 | a name is refused iff it has none of the accepted forms |
| Repository.ExtraSegmentsIgnored | src/handlers/webhook.ts:100 | `a/b/c` is owner `a`, repository `b` |
| Repository.MalformedNamesRefused | src/handlers/webhook.ts:100-101 | `ab`, `/b`, `a/` and `a//b` are refused |
| Webhook.MentionPayload | src/handlers/webhook.ts:158-170 | the mention payload has action `opened`, the fetched pull request, the comment's repository and installation, the parsed type and trigger `mention` |
| Webhook.InScope | src/handlers/webhook.ts:68-72 | the event types handled at all: `pull_request`, `pull_request_review`, `issue_comment` |
| Webhook.RequestsArgus | src/handlers/webhook.ts:86-90 | a requested reviewer exists, is of type `Bot`, and has a login containing `argus-ai-assistant` |
| Webhook.CommentText | src/handlers/webhook.ts:121 | the comment body, or the empty string when there is none |
| Webhook.AppendInOrder | src/handlers/webhook.ts:35-245 | a call of a later stage keeps the trace in stage order |
| Webhook.Accept | src/handlers/webhook.ts:224-263 | acceptance snapshots the payload, dispatches one job with the delivery id last, and replies 200 with the delivery id |
| Webhook.RateGate | src/handlers/webhook.ts:217-222 | a rate-limited delivery gets 429 `Rate limit exceeded`, exactly then; otherwise a job, dispatched last, with the acceptance reply |
| Webhook.DedupGate | src/handlers/webhook.ts:205-215 | a duplicate gets 200 `Duplicate event`, exactly then; a new but rate-limited one 429; a job iff new and within the limit |
| Webhook.AllowGate | src/handlers/webhook.ts:189-200 | a repository off the list gets 200 `Repository not on allowed list`, exactly then; then the duplicate and rate-limit replies in their cases; a job iff all three pass |
| Webhook.FetchCall | src/handlers/webhook.ts:147-155 | the fetch call, with the split owner and repo, the issue number and the installation id or 0, belongs to the fetch stage |
| Webhook.Gates | src/handlers/webhook.ts:180-263 | a draft gets 200 `Draft PR ignored`, exactly then; each later refusal gets its own reply only in its case; a job iff no refusal, dispatched last, with the acceptance reply |
| Webhook.CommentTrigger | src/handlers/webhook.ts:109-178 | the comment trigger answers 200, 429 or 500 and keeps the trace in stage order; a job only with the acceptance reply, only for a non-`skip` command and a fetched pull request, and with the mention payload |
| Webhook.HandleDelivery | src/handlers/webhook.ts:35-263 | the signature check comes first; 401 iff the signature is invalid, and then nothing else is called; a job iff the reply is the acceptance; the job is dispatched last, carries the delivery id, is never a draft, and reviews the delivery's own payload or, from a comment, the mention payload of a fetched pull request |
| Webhook.HandleWebhook | src/handlers/webhook.ts:33-263 | a review started from a comment has action `opened`, trigger `mention`, and type `full` or one of the three scopes |
| Webhook.WebhookHandler | src/handlers/webhook.ts:33-263 | the imperative handler, reassigning `payload` and writing its metadata fields, computes `HandleWebhook` |
| WebhookProperties.SignatureGate | src/handlers/webhook.ts:35-49 | an invalid signature gives 401 `Invalid signature`, no job, and only the signature call |
| WebhookProperties.EventTypeFilter | src/handlers/webhook.ts:67-75 | an event type outside the three gives 200 `Event ignored` and nothing else |
| WebhookProperties.ReviewEventUnfiltered | src/handlers/webhook.ts:77-97 | a `pull_request_review` delivery gets the same reply and the same job decision whatever its action and requested reviewer |
| WebhookProperties.GatesIgnoreAction | src/handlers/webhook.ts:189-263 | the gates decide the same whatever action the payload carries |
| WebhookProperties.PullRequestFilter | src/handlers/webhook.ts:77-97 | `Action ignored` iff the action is not `review_requested`; `Review request not for ArgusAI` iff it is but no bot reviewer whose login contains `argus-ai-assistant` is requested; either ends with no job |
| WebhookProperties.RepositoryCheck | src/handlers/webhook.ts:99-109 | past the filters, 400 iff the name has no non-empty owner and repo, before any comment check |
| WebhookProperties.CommentFilter | src/handlers/webhook.ts:112-119 | a comment that is not newly created on a pull request gives 200 `Comment ignored` |
| WebhookProperties.NoMentionIgnored | src/handlers/webhook.ts:121-129 | a comment in which the pattern matches nowhere gives 200 `No ArgusAI mention found`, with nothing consulted |
| WebhookProperties.SkipAcknowledgedOnly | src/handlers/webhook.ts:140-144 | `skip` gives 200 `Skip command acknowledged` with no fetch and no job |
| WebhookProperties.FetchFailure | src/handlers/webhook.ts:146-177 | a failed fetch gives 500 `Failed to fetch pull request` after the fetch call only |
| WebhookProperties.MentionReview | src/handlers/webhook.ts:146-178 | a `review` fetches with the split name, and a job has the mention payload; there is a job iff the fetched pull request is not a draft and every gate passes |
| WebhookProperties.CommentIgnoresPayloadPullRequest | src/handlers/webhook.ts:108-178 | on the comment trigger the delivery's own `pull_request` field is never read |
| WebhookProperties.GateCalls | src/handlers/webhook.ts:189-245 | the gate calls belong to stages 2 to 6, in order |
| WebhookProperties.GatesTrace | src/handlers/webhook.ts:180-245 | the gates append a prefix of their calls, stopping at the first refusal, and start a job only after all of them |
| WebhookProperties.GatesConsult | src/handlers/webhook.ts:180-263 | each store is consulted iff every earlier gate passed; the new calls carry the payload's keys |
| WebhookProperties.GateEntryOutcome | src/handlers/webhook.ts:35-183 | a delivery that passes every earlier stage is answered by the gates; its entry payload has the delivery's name, installation and reviewed pull request; any other delivery consults no store and starts no job |
| WebhookProperties.DirectEntry | src/handlers/webhook.ts:99-183 | a pull-request or review delivery enters the gates with its own payload |
| WebhookProperties.CommentEntry | src/handlers/webhook.ts:108-183 | the comment trigger enters the gates after the fetch, or stops after at most the fetch with no job |
| WebhookProperties.StoresConsulted | src/handlers/webhook.ts:180-245 | allow-list iff a non-draft entry; duplicate store iff also allowed; rate limiter iff also new; snapshot and dispatch iff a job; a job iff all gates pass |
| WebhookProperties.DuplicateNeverRateLimited | src/handlers/webhook.ts:205-222 | a duplicate never consults the rate limiter and never starts a job |
| WebhookProperties.DraftDropped | src/handlers/webhook.ts:180-183 | a draft that reaches the gates gives 200 `Draft PR ignored`, with no store consulted and no job |
| WebhookProperties.StoreKeys | src/handlers/webhook.ts:147-233 | every call carries the delivery's keys: split owner/repo, issue number, installation id or 0, full name with the reviewed PR number, delivery id |
| WebhookProperties.FetchOnlyForReview | src/handlers/webhook.ts:108-155 | the pull request is fetched iff a new comment on a pull request carries a non-`skip` mention |
| WebhookProperties.SecurityReviewDispatched | src/handlers/webhook.ts:108-263 | `@argus-ai-assistant review security` on a passing pull request starts a security review of the fetched pull request with reply 200 |
| WebhookProperties.SingleDispatch | src/handlers/webhook.ts:232-245 | the review is dispatched at most once |
| WebhookProperties.RepliesFixed | src/handlers/webhook.ts:41-263 | every delivery gets one of the fourteen fixed replies: one of the nine early ones iff it does not enter the gates, one of the five gate replies iff it does |
| WebhookProperties.GateReplies | src/handlers/webhook.ts:180-222 | for the whole handler: `Draft PR ignored` iff a draft enters the gates, `Repository not on allowed list` iff a non-draft is not allowed, `Duplicate event` iff an allowed one is a duplicate, 429 iff a new one is rate-limited |
| WebhookProperties.SkipMentionAcknowledged | src/handlers/webhook.ts:121-144 | a new pull-request comment whose leftmost mention spells `skip` gets 200 `Skip command acknowledged`, with no fetch and no job |
| WebhookProperties.ReviewMentionDispatched | src/handlers/webhook.ts:121-263 | a leftmost mention spelling `review`, on a pull request that passes the gates, starts a review of the spelled scope, or `full`, of the fetched pull request |

## Left out

- The HMAC check (`validateWebhookSignature`) is a boolean input. Its code is not part of this model.
- Body parsing, header reading and `JSON.parse` are not modelled. The delivery is given as parsed fields; a missing `x-github-event` header is `None`.
- The `crypto.randomUUID()` fallback delivery id is not modelled. The delivery id is an input.
- The allow-list, duplicate store, rate limiter and pull-request fetch are outcome inputs. Their internals and the stores' atomicity under concurrent redelivery are not part of this model.
- The debug snapshot is recorded as a trace call only. What it writes is not modelled.
- `waitUntil`, the background review and its `.catch`/`saveDebugError` are left out, because they are concurrent. The dispatch is one recorded job, and the reply does not depend on it.
- Logging and `Date.now()` are left out. The acceptance reply's `processingTime` is therefore not part of `Started`.
- The outer `catch` (500 `Internal server error`) is left out. It covers JavaScript runtime errors such as a payload with no `repository`, and collaborator exceptions other than the fetch failure.
- Case folding is ASCII only. Without the `u` flag, a case-insensitive JavaScript match never maps a non-ASCII character onto an ASCII one, so for this ASCII pattern ASCII folding is exact. Outside the matched groups, `toLowerCase` is not needed.
- Strings are sequences of Unicode scalar values, not UTF-16 code units. The pattern and `\s` contain no surrogates, so matching is unaffected.
- The delivery does not carry the fields the handler only copies or logs: `number`, `organization`, `sender`, and the commenter's login.
- The trace records the owner and repository that `isAllowed` receives, not the storage handle.
- WebhookProperties.ReviewEventUnfiltered: states that the reply and the job decision are unchanged, not the whole trace. The snapshot call carries the payload, and so its action.
