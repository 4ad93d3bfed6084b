/** The campaign deployment system as one step relation: API clients creating campaigns and deleting
    fundraisers, the broker, any number of deployment workers, and their environment.

    A step is one SQL statement, one commit, one object-store call, one broker event or one chain
    call. Reads see committed rows. A row lock taken by FOR UPDATE is held by the process states that
    follow it, and a step that needs a lock is enabled only when no other process holds it.
    Uncommitted writes live in the process that made them. */
module Pipeline {
  import opened Options
  import opened Uuid
  import opened Timestamp
  import opened Domain
  import opened ObjectKeys
  import opened CampaignRules
  import opened DeploymentCodec
  import StubDeployer
  import Text

  datatype Config = Config(apiChainId: int, workerChainId: int, stub: bool)

  datatype MessageState = Queued | InFlight(handler: nat) | Acked

  datatype QueueMessage = QueueMessage(body: Message, state: MessageState)

  /** Everything outside the processes. `deployments` is the record of what deploy calls returned. */
  datatype Db = Db(
    users: map<UUID, User>,
    campaigns: map<UUID, Campaign>,
    events: map<UUID, BlockchainEvent>,
    objects: set<string>,
    messages: map<nat, QueueMessage>,
    deployments: set<(UUID, DeploymentResult)>)

  datatype Proc =
    // CampaignService.Create
    | Promoting(input: CreateCampaignInput, id: UUID, absent: bool)
    | Requesting(input: CreateCampaignInput, request: Campaign, minimumEndAt: Instant)
    | CreateLocked(input: CreateCampaignInput, request: Campaign, minimumEndAt: Instant)
    | Inserting(input: CreateCampaignInput, request: Campaign, minimumEndAt: Instant)
    | InsertSkipped(input: CreateCampaignInput, request: Campaign)
    | Inserted(input: CreateCampaignInput, row: Campaign, minimumEndAt: Instant)
    | Replaying(input: CreateCampaignInput, row: Campaign)
    | Discarding(input: CreateCampaignInput, row: Campaign)
    | Publishing(input: CreateCampaignInput, row: Campaign)
    | Created(input: CreateCampaignInput, row: Campaign)
    | Conflicted(input: CreateCampaignInput, existing: Campaign)
    | CreateFailed(input: CreateCampaignInput)
    // FundraiserService.DeleteProfile
    | Deleting(walletAddress: string)
    | DeleteLocked(fundraiserId: UUID)
    | DeleteCleared(fundraiserId: UUID)
    | DeleteDone(fundraiserId: UUID)
    | DeleteRefused
    // Deployer.handleDelivery and CampaignDeploymentWorker.Handle
    | Received(mid: nat)
    | Loading(mid: nat, task: CampaignDeploymentTask)
    | Deploying(mid: nat, task: CampaignDeploymentTask)
    | Deployed(mid: nat, task: CampaignDeploymentTask, result: DeploymentResult)
    | Completing(mid: nat, task: CampaignDeploymentTask, eventId: UUID, result: DeploymentResult)
    | EventWritten(mid: nat, task: CampaignDeploymentTask, eventId: UUID, result: DeploymentResult)
    | RowWritten(mid: nat, task: CampaignDeploymentTask, eventId: UUID, result: DeploymentResult)
    | Acking(mid: nat)
    | Nacking(mid: nat)
    | Handled(mid: nat)
    | Crashed

  datatype State = State(db: Db, procs: map<nat, Proc>)

  // ---- What a process holds ----

  function UserLock(p: Proc): Option<UUID> {
    match p
    case CreateLocked(_, request, _) => Some(request.fundraiserId)
    case Inserting(_, request, _) => Some(request.fundraiserId)
    case InsertSkipped(_, request) => Some(request.fundraiserId)
    case Inserted(_, row, _) => Some(row.fundraiserId)
    case Replaying(_, row) => Some(row.fundraiserId)
    case DeleteLocked(f) => Some(f)
    case DeleteCleared(f) => Some(f)
    case _ => None
  }

  function CampaignLock(p: Proc): Option<UUID> {
    match p
    case Completing(_, task, _, _) => Some(task.campaignId)
    case EventWritten(_, task, _, _) => Some(task.campaignId)
    case RowWritten(_, task, _, _) => Some(task.campaignId)
    case _ => None
  }

  /** The generated id of a campaign that is not stored yet. */
  function NewCampaignId(p: Proc): Option<UUID> {
    match p
    case Promoting(_, id, _) => Some(id)
    case Requesting(_, request, _) => Some(request.id)
    case CreateLocked(_, request, _) => Some(request.id)
    case Inserting(_, request, _) => Some(request.id)
    case InsertSkipped(_, request) => Some(request.id)
    case Inserted(_, row, _) => Some(row.id)
    case _ => None
  }

  /** The uncommitted row in blockchain_events. */
  function NewEvent(p: Proc): Option<(UUID, BlockchainEvent)> {
    match p
    case EventWritten(_, _, eventId, result) => Some((eventId, CreationEvent(result)))
    case RowWritten(_, _, eventId, result) => Some((eventId, CreationEvent(result)))
    case _ => None
  }

  /** The uncommitted contract_address. */
  function NewAddress(p: Proc): Option<string> {
    match p
    case RowWritten(_, _, _, result) => Some(Text.TrimSpace(result.contractAddress))
    case _ => None
  }

  predicate EventsCollide(a: (UUID, BlockchainEvent), b: (UUID, BlockchainEvent)) {
    a.0 == b.0 || SameLog(a.1, b.1)
  }

  /** The two processes cannot both be in these states: a lock or a unique index keeps them apart. */
  predicate Exclusive(p: Proc, q: Proc) {
    || (UserLock(p).Some? && UserLock(p) == UserLock(q))
    || (CampaignLock(p).Some? && CampaignLock(p) == CampaignLock(q))
    || (NewCampaignId(p).Some? && NewCampaignId(p) == NewCampaignId(q))
    || (NewEvent(p).Some? && NewEvent(q).Some? && EventsCollide(NewEvent(p).value, NewEvent(q).value))
    || (NewAddress(p).Some? && NewAddress(p) == NewAddress(q))
  }

  /** No other process stands in the way of this one moving to p. */
  predicate MayEnter(s: State, pid: nat, p: Proc) {
    forall q :: q in s.procs && q != pid ==> !Exclusive(p, s.procs[q])
  }

  function To(s: State, pid: nat, p: Proc): State {
    s.(procs := s.procs[pid := p])
  }

  predicate At(s: State, pid: nat, p: Proc) {
    pid in s.procs && s.procs[pid] == p
  }

  // ---- CampaignService.Create ----

  /** A client calls Create; the id is freshly generated, and the image key is checked. */
  predicate BeginCreate(s: State, s': State, pid: nat, input: CreateCampaignInput, id: UUID) {
    && pid !in s.procs
    && id !in s.db.campaigns
    && MayEnter(s, pid, Promoting(input, id, false))
    && s' == To(s, pid, if Canonical(input.imageObjectKey, Campaigns).Some?
                        then Promoting(input, id, false) else CreateFailed(input))
  }

  /** The image is in place: the repository is called with the row and the earliest end time. */
  function RequestAt(input: CreateCampaignInput, id: UUID, now: Instant): Proc
    requires Canonical(input.imageObjectKey, Campaigns).Some?
  {
    Requesting(
      input,
      RequestedCampaign(id, input, Canonical(input.imageObjectKey, Campaigns).value),
      now + CAMPAIGN_DEPLOYMENT_LEAD_TIME)
  }

  /** Promote, first call: stat the canonical object. */
  predicate StatImage(s: State, s': State, pid: nat, now: Instant) {
    && pid in s.procs && s.procs[pid].Promoting? && !s.procs[pid].absent
    && var Promoting(input, id, _) := s.procs[pid];
    && Canonical(input.imageObjectKey, Campaigns).Some?
    && s' == To(s, pid, if Canonical(input.imageObjectKey, Campaigns).value in s.db.objects
                        then RequestAt(input, id, now) else Promoting(input, id, true))
  }

  /** Promote, second call: copy the staging object. */
  predicate CopyImage(s: State, s': State, pid: nat, now: Instant) {
    && pid in s.procs && s.procs[pid].Promoting? && s.procs[pid].absent
    && var Promoting(input, id, _) := s.procs[pid];
    && Canonical(input.imageObjectKey, Campaigns).Some?
    && if Text.TrimSpace(input.imageObjectKey) in s.db.objects then
         s' == To(s, pid, RequestAt(input, id, now))
               .(db := s.db.(objects := s.db.objects + {Canonical(input.imageObjectKey, Campaigns).value}))
       else
         s' == To(s, pid, CreateFailed(input))
  }

  /** SELECT ... FOR UPDATE finds and locks the fundraiser. */
  predicate LockFundraiser(s: State, s': State, pid: nat, f: UUID) {
    && pid in s.procs && s.procs[pid].Requesting?
    && var Requesting(input, request, minimumEndAt) := s.procs[pid];
    && f in s.db.users && MatchesFundraiser(s.db.users[f], input.walletAddress)
    && var locked := CreateLocked(input, request.(fundraiserId := f), minimumEndAt);
    && MayEnter(s, pid, locked)
    && s' == To(s, pid, locked)
  }

  predicate LockFundraiserNone(s: State, s': State, pid: nat) {
    && pid in s.procs && s.procs[pid].Requesting?
    && (forall f :: f in s.db.users ==> !MatchesFundraiser(s.db.users[f], s.procs[pid].input.walletAddress))
    && s' == To(s, pid, CreateFailed(s.procs[pid].input))
  }

  /** findCampaignByIdempotencyKey returned a row. */
  predicate LookupFound(s: State, s': State, pid: nat, c: UUID) {
    && pid in s.procs && s.procs[pid].CreateLocked?
    && var CreateLocked(input, request, _) := s.procs[pid];
    && c in s.db.campaigns && HasKey(s.db.campaigns[c], request.fundraiserId, request.idempotencyKey)
    && s' == To(s, pid, if SameCreationPayload(s.db.campaigns[c], request)
                        then Replaying(input, s.db.campaigns[c]) else Conflicted(input, s.db.campaigns[c]))
  }

  predicate LookupNone(s: State, s': State, pid: nat) {
    && pid in s.procs && s.procs[pid].CreateLocked?
    && var CreateLocked(input, request, minimumEndAt) := s.procs[pid];
    && !KeyTaken(s.db.campaigns, request.fundraiserId, request.idempotencyKey)
    && s' == To(s, pid, if request.endAt < minimumEndAt then CreateFailed(input) else Inserting(input, request, minimumEndAt))
  }

  /** INSERT ... ON CONFLICT DO NOTHING. */
  predicate InsertCampaign(s: State, s': State, pid: nat, createdAt: Instant) {
    && pid in s.procs && s.procs[pid].Inserting?
    && var Inserting(input, request, minimumEndAt) := s.procs[pid];
    && if request.goalAmount <= 0 || request.id in s.db.campaigns then
         s' == To(s, pid, CreateFailed(input))
       else if KeyTaken(s.db.campaigns, request.fundraiserId, request.idempotencyKey) then
         s' == To(s, pid, InsertSkipped(input, request))
       else
         s' == To(s, pid, Inserted(input, request.(createdAt := createdAt), minimumEndAt))
  }

  /** The lookup after an insert that did nothing. */
  predicate ResolveConflict(s: State, s': State, pid: nat, c: UUID) {
    && pid in s.procs && s.procs[pid].InsertSkipped?
    && var InsertSkipped(input, request) := s.procs[pid];
    && c in s.db.campaigns && HasKey(s.db.campaigns[c], request.fundraiserId, request.idempotencyKey)
    && s' == To(s, pid, if SameCreationPayload(s.db.campaigns[c], request)
                        then Replaying(input, s.db.campaigns[c]) else Conflicted(input, s.db.campaigns[c]))
  }

  /** Commit of a new row. The client may not learn that it succeeded. */
  predicate CommitCreate(s: State, s': State, pid: nat, seen: bool) {
    && pid in s.procs && s.procs[pid].Inserted?
    && var Inserted(input, row, _) := s.procs[pid];
    && s' == To(s, pid, if seen then Discarding(input, row) else CreateFailed(input))
             .(db := s.db.(campaigns := s.db.campaigns[row.id := row]))
  }

  predicate CommitReplay(s: State, s': State, pid: nat) {
    && pid in s.procs && s.procs[pid].Replaying?
    && s' == To(s, pid, Discarding(s.procs[pid].input, s.procs[pid].row))
  }

  /** Best-effort removal of the staging object. */
  predicate DiscardStaging(s: State, s': State, pid: nat, removed: bool) {
    && pid in s.procs && s.procs[pid].Discarding?
    && var Discarding(input, row) := s.procs[pid];
    && s' == To(s, pid, Publishing(input, row))
             .(db := s.db.(objects := s.db.objects - if removed then {Text.TrimSpace(input.imageObjectKey)} else {}))
  }

  /** publishCampaignDeployment. A confirmed message is in the queue; an unconfirmed one may be. */
  predicate Publish(cfg: Config, s: State, s': State, pid: nat, mid: nat, accepted: bool, confirmed: bool) {
    && pid in s.procs && s.procs[pid].Publishing?
    && var Publishing(input, row) := s.procs[pid];
    && (confirmed ==> accepted)
    && mid !in s.db.messages
    && if !NeedsDeployment(row) then
         s' == To(s, pid, Created(input, row))
       else if cfg.apiChainId <= 0 then
         s' == To(s, pid, CreateFailed(input))
       else
         var body := Encode(TaskFor(row, Text.TrimSpace(input.walletAddress), cfg.apiChainId));
         s' == To(s, pid, if confirmed then Created(input, row) else CreateFailed(input))
               .(db := s.db.(messages := if accepted then s.db.messages[mid := QueueMessage(body, Queued)]
                                         else s.db.messages))
  }

  // ---- FundraiserService.DeleteProfile ----

  predicate BeginDelete(s: State, s': State, pid: nat, walletAddress: string) {
    && pid !in s.procs
    && s' == To(s, pid, Deleting(walletAddress))
  }

  predicate LockForDelete(s: State, s': State, pid: nat, f: UUID) {
    && pid in s.procs && s.procs[pid].Deleting?
    && f in s.db.users && MatchesFundraiser(s.db.users[f], s.procs[pid].walletAddress)
    && MayEnter(s, pid, DeleteLocked(f))
    && s' == To(s, pid, DeleteLocked(f))
  }

  /** The check for pending or active campaigns. */
  predicate CheckForDelete(s: State, s': State, pid: nat) {
    && pid in s.procs && s.procs[pid].DeleteLocked?
    && var f := s.procs[pid].fundraiserId;
    && s' == To(s, pid, if OwnsUndeletable(s.db.campaigns, f) then DeleteRefused else DeleteCleared(f))
  }

  predicate CommitDelete(s: State, s': State, pid: nat) {
    && pid in s.procs && s.procs[pid].DeleteCleared?
    && var f := s.procs[pid].fundraiserId;
    && f in s.db.users
    && s' == To(s, pid, DeleteDone(f))
             .(db := s.db.(users := s.db.users[f := s.db.users[f].(deleted := true)]))
  }

  // ---- Broker and worker ----

  predicate Deliver(s: State, s': State, pid: nat, mid: nat) {
    && pid !in s.procs
    && mid in s.db.messages && s.db.messages[mid].state == Queued
    && s' == To(s, pid, Received(mid))
             .(db := s.db.(messages := s.db.messages[mid := s.db.messages[mid].(state := InFlight(pid))]))
  }

  /** The channel of an unacknowledged delivery dies: the broker puts the message back. */
  predicate Redeliver(s: State, s': State, mid: nat) {
    && mid in s.db.messages && s.db.messages[mid].state.InFlight?
    && s' == s.(db := s.db.(messages := s.db.messages[mid := s.db.messages[mid].(state := Queued)]))
  }

  /** Decoding, and the chain check of Handle. */
  predicate ReadTask(cfg: Config, s: State, s': State, pid: nat) {
    && pid in s.procs && s.procs[pid].Received?
    && var mid := s.procs[pid].mid;
    && mid in s.db.messages
    && s' == To(s, pid,
                match Decode(s.db.messages[mid].body)
                case Err(_) => Acking(mid)
                case Ok(task) => if task.chainId != cfg.workerChainId then Acking(mid) else Loading(mid, task))
  }

  /** FindByIDForDeployment and the filters after it. */
  predicate LoadCampaign(s: State, s': State, pid: nat) {
    && pid in s.procs && s.procs[pid].Loading?
    && var Loading(mid, task) := s.procs[pid];
    && s' == To(s, pid,
                if task.campaignId !in s.db.campaigns then Acking(mid)
                else match JudgeLoaded(task, s.db.campaigns[task.campaignId])
                     case Skip => Acking(mid)
                     case Deploy => Deploying(mid, task))
  }

  /** The deploy call takes effect on the chain; its result may be lost. */
  predicate DeployContract(cfg: Config, s: State, s': State, pid: nat, result: DeploymentResult, seen: bool) {
    && pid in s.procs && s.procs[pid].Deploying?
    && var Deploying(mid, task) := s.procs[pid];
    && (cfg.stub ==> StubDeployer.Deploy(task.campaignId, result.eventCreatedAt) == Some(result))
    && s' == To(s, pid, if seen then Deployed(mid, task, result) else Nacking(mid))
             .(db := s.db.(deployments := s.db.deployments + {(task.campaignId, result)}))
  }

  /** CompleteDeployment: argument checks, then SELECT ... FOR UPDATE of the campaign. */
  predicate LockCampaign(s: State, s': State, pid: nat, eventId: UUID) {
    && pid in s.procs && s.procs[pid].Deployed?
    && var Deployed(mid, task, result) := s.procs[pid];
    && if !CompletionArgumentsValid(eventId, result) then
         s' == To(s, pid, Nacking(mid))
       else
         && MayEnter(s, pid, Completing(mid, task, eventId, result))
         && if task.campaignId !in s.db.campaigns then
              s' == To(s, pid, Nacking(mid))
            else
              s' == To(s, pid,
                       match JudgeLocked(s.db.campaigns[task.campaignId])
                       case AlreadyActive => Acking(mid)
                       case NotPending => Acking(mid)
                       case Record => Completing(mid, task, eventId, result))
  }

  predicate InsertEvent(s: State, s': State, pid: nat) {
    && pid in s.procs && s.procs[pid].Completing?
    && var Completing(mid, task, eventId, result) := s.procs[pid];
    && if !EventKeyFree(s.db.events, eventId, CreationEvent(result)) then
         s' == To(s, pid, Nacking(mid))
       else
         var written := EventWritten(mid, task, eventId, result);
         MayEnter(s, pid, written) && s' == To(s, pid, written)
  }

  predicate UpdateCampaign(s: State, s': State, pid: nat) {
    && pid in s.procs && s.procs[pid].EventWritten?
    && var EventWritten(mid, task, eventId, result) := s.procs[pid];
    && if !AddressFree(s.db.campaigns, task.campaignId, Text.TrimSpace(result.contractAddress)) then
         s' == To(s, pid, Nacking(mid))
       else
         var written := RowWritten(mid, task, eventId, result);
         MayEnter(s, pid, written) && s' == To(s, pid, written)
  }

  /** Commit of the event and the activation. The worker may not learn that it succeeded. */
  predicate CommitDeployment(s: State, s': State, pid: nat, seen: bool) {
    && pid in s.procs && s.procs[pid].RowWritten?
    && var RowWritten(mid, task, eventId, result) := s.procs[pid];
    && task.campaignId in s.db.campaigns
    && var c := task.campaignId;
    && s' == To(s, pid, if seen then Acking(mid) else Nacking(mid))
             .(db := s.db.(campaigns := s.db.campaigns[c := Activated(s.db.campaigns[c], eventId, result)],
                           events := s.db.events[eventId := CreationEvent(result)]))
  }

  /** An error returned anywhere in Handle: the delivery will be nacked. */
  predicate WorkerError(s: State, s': State, pid: nat) {
    && pid in s.procs
    && (s.procs[pid].Received? || s.procs[pid].Loading? || s.procs[pid].Deploying? || s.procs[pid].Deployed?
        || s.procs[pid].Completing? || s.procs[pid].EventWritten? || s.procs[pid].RowWritten?)
    && s' == To(s, pid, Nacking(s.procs[pid].mid))
  }

  /** Ack or nack with requeue. It has no effect when the delivery is no longer this handler's. */
  predicate Settle(s: State, s': State, pid: nat, reached: bool) {
    && pid in s.procs && (s.procs[pid].Acking? || s.procs[pid].Nacking?)
    && var mid := s.procs[pid].mid;
    && mid in s.db.messages
    && var effective := reached && s.db.messages[mid].state == InFlight(pid);
    && var state := if s.procs[pid].Acking? then Acked else Queued;
    && s' == To(s, pid, Handled(mid))
             .(db := s.db.(messages := if effective then s.db.messages[mid := s.db.messages[mid].(state := state)]
                                       else s.db.messages))
  }

  /** A process dies: its locks and uncommitted writes go with it. */
  predicate Crash(s: State, s': State, pid: nat) {
    && pid in s.procs
    && s' == To(s, pid, Crashed)
  }

  // ---- Environment ----

  /** Registration of a fundraiser or a supporter. */
  predicate RegisterUser(s: State, s': State, id: UUID, user: User) {
    && id !in s.db.users && !user.deleted && WalletFree(s.db.users, user.walletAddress)
    && s' == s.(db := s.db.(users := s.db.users[id := user]))
  }

  /** The indexer updates an unlocked row: counters, or a final status. */
  predicate ExternalUpdate(s: State, s': State, c: UUID, row: Campaign) {
    && c in s.db.campaigns
    && (forall q :: q in s.procs ==> CampaignLock(s.procs[q]) != Some(c))
    && var before := s.db.campaigns[c];
    && SameCreationFields(before, row)
    && row.eventId == before.eventId && row.contractAddress == before.contractAddress
    && (row.status == before.status || row.status in {Completed, Cancelled, Failed})
    && LiveChainDataCheck(row)
    && s' == s.(db := s.db.(campaigns := s.db.campaigns[c := row]))
  }

  /** The indexer records an event of another kind. */
  predicate ExternalEvent(s: State, s': State, e: UUID, event: BlockchainEvent) {
    && event.kind != CampaignCreated
    && EventKeyFree(s.db.events, e, event)
    && (forall q :: q in s.procs && NewEvent(s.procs[q]).Some? ==>
                      !EventsCollide((e, event), NewEvent(s.procs[q]).value))
    && s' == s.(db := s.db.(events := s.db.events[e := event]))
  }

  /** Any other publisher: unreadable bodies, tasks for other chains, and repeats of tasks for
      stored campaigns. */
  predicate ForeignPublish(cfg: Config, s: State, s': State, mid: nat, body: Message) {
    && mid !in s.db.messages
    && TargetStored(cfg, s.db, body)
    && s' == s.(db := s.db.(messages := s.db.messages[mid := QueueMessage(body, Queued)]))
  }

  predicate TargetStored(cfg: Config, db: Db, body: Message) {
    var read := Decode(body);
    read.Ok? && read.value.chainId == cfg.workerChainId ==> read.value.campaignId in db.campaigns
  }

  /** Uploads, profile-image promotions, profile-image deletions and the expiry of tmp/. */
  predicate ObjectsChange(s: State, s': State, added: set<string>, removed: set<string>) {
    && (forall key :: key in removed ==> !Text.HasPrefix(key, "campaigns/"))
    && s' == s.(db := s.db.(objects := s.db.objects - removed + added))
  }

  // ---- The step relation ----

  datatype Action =
    | ABeginCreate(pid: nat, input: CreateCampaignInput, id: UUID)
    | AStatImage(pid: nat, now: Instant)
    | ACopyImage(pid: nat, now: Instant)
    | ALockFundraiser(pid: nat, fundraiser: UUID)
    | ALockFundraiserNone(pid: nat)
    | ALookupFound(pid: nat, campaign: UUID)
    | ALookupNone(pid: nat)
    | AInsertCampaign(pid: nat, createdAt: Instant)
    | AResolveConflict(pid: nat, campaign: UUID)
    | ACommitCreate(pid: nat, seen: bool)
    | ACommitReplay(pid: nat)
    | ADiscardStaging(pid: nat, removed: bool)
    | APublish(pid: nat, mid: nat, accepted: bool, confirmed: bool)
    | ABeginDelete(pid: nat, walletAddress: string)
    | ALockForDelete(pid: nat, fundraiser: UUID)
    | ACheckForDelete(pid: nat)
    | ACommitDelete(pid: nat)
    | ADeliver(pid: nat, mid: nat)
    | ARedeliver(mid: nat)
    | AReadTask(pid: nat)
    | ALoadCampaign(pid: nat)
    | ADeployContract(pid: nat, result: DeploymentResult, seen: bool)
    | ALockCampaign(pid: nat, eventId: UUID)
    | AInsertEvent(pid: nat)
    | AUpdateCampaign(pid: nat)
    | ACommitDeployment(pid: nat, seen: bool)
    | AWorkerError(pid: nat)
    | ASettle(pid: nat, reached: bool)
    | ACrash(pid: nat)
    | ARegisterUser(user: UUID, row: User)
    | AExternalUpdate(campaign: UUID, newRow: Campaign)
    | AExternalEvent(event: UUID, eventRow: BlockchainEvent)
    | AForeignPublish(mid: nat, body: Message)
    | AObjectsChange(added: set<string>, gone: set<string>)

  predicate Next(cfg: Config, s: State, a: Action, s': State) {
    match a
    case ABeginCreate(pid, input, id) => BeginCreate(s, s', pid, input, id)
    case AStatImage(pid, now) => StatImage(s, s', pid, now)
    case ACopyImage(pid, now) => CopyImage(s, s', pid, now)
    case ALockFundraiser(pid, f) => LockFundraiser(s, s', pid, f)
    case ALockFundraiserNone(pid) => LockFundraiserNone(s, s', pid)
    case ALookupFound(pid, c) => LookupFound(s, s', pid, c)
    case ALookupNone(pid) => LookupNone(s, s', pid)
    case AInsertCampaign(pid, createdAt) => InsertCampaign(s, s', pid, createdAt)
    case AResolveConflict(pid, c) => ResolveConflict(s, s', pid, c)
    case ACommitCreate(pid, seen) => CommitCreate(s, s', pid, seen)
    case ACommitReplay(pid) => CommitReplay(s, s', pid)
    case ADiscardStaging(pid, removed) => DiscardStaging(s, s', pid, removed)
    case APublish(pid, mid, accepted, confirmed) => Publish(cfg, s, s', pid, mid, accepted, confirmed)
    case ABeginDelete(pid, wallet) => BeginDelete(s, s', pid, wallet)
    case ALockForDelete(pid, f) => LockForDelete(s, s', pid, f)
    case ACheckForDelete(pid) => CheckForDelete(s, s', pid)
    case ACommitDelete(pid) => CommitDelete(s, s', pid)
    case ADeliver(pid, mid) => Deliver(s, s', pid, mid)
    case ARedeliver(mid) => Redeliver(s, s', mid)
    case AReadTask(pid) => ReadTask(cfg, s, s', pid)
    case ALoadCampaign(pid) => LoadCampaign(s, s', pid)
    case ADeployContract(pid, result, seen) => DeployContract(cfg, s, s', pid, result, seen)
    case ALockCampaign(pid, eventId) => LockCampaign(s, s', pid, eventId)
    case AInsertEvent(pid) => InsertEvent(s, s', pid)
    case AUpdateCampaign(pid) => UpdateCampaign(s, s', pid)
    case ACommitDeployment(pid, seen) => CommitDeployment(s, s', pid, seen)
    case AWorkerError(pid) => WorkerError(s, s', pid)
    case ASettle(pid, reached) => Settle(s, s', pid, reached)
    case ACrash(pid) => Crash(s, s', pid)
    case ARegisterUser(id, user) => RegisterUser(s, s', id, user)
    case AExternalUpdate(c, row) => ExternalUpdate(s, s', c, row)
    case AExternalEvent(e, event) => ExternalEvent(s, s', e, event)
    case AForeignPublish(mid, body) => ForeignPublish(cfg, s, s', mid, body)
    case AObjectsChange(added, gone) => ObjectsChange(s, s', added, gone)
  }

  predicate Init(s: State) {
    && s.db.users == map[] && s.db.campaigns == map[] && s.db.events == map[]
    && s.db.messages == map[] && s.db.deployments == {}
    && s.procs == map[]
  }

  ghost predicate Step(cfg: Config, s: State, s': State) {
    exists a :: Next(cfg, s, a, s')
  }

  /** A run is a sequence of states linked by steps. */
  ghost predicate IsRun(cfg: Config, run: seq<State>) {
    && |run| > 0
    && Init(run[0])
    && forall i :: 0 <= i < |run| - 1 ==> Step(cfg, run[i], run[i + 1])
  }
}
