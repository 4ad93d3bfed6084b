/** What every step of the deployment pipeline keeps. */
module PipelineInvariant {
  import opened Options
  import opened Uuid
  import opened Domain
  import opened ObjectKeys
  import opened CampaignRules
  import opened DeploymentCodec
  import opened Pipeline
  import StubDeployer
  import Text

  // ---- Committed data ----

  /** The campaign's chain data come from a deploy call made for this very campaign. */
  predicate RecordedFrom(db: Db, c: UUID, result: DeploymentResult) {
    && c in db.campaigns
    && db.campaigns[c].eventId.Some? && db.campaigns[c].eventId.value in db.events
    && EventRecords(db.events[db.campaigns[c].eventId.value], result)
    && db.campaigns[c].contractAddress == Some(Text.TrimSpace(result.contractAddress))
    && !Text.Blank(result.contractAddress)
  }

  ghost predicate RowInv(db: Db, c: UUID)
    requires c in db.campaigns
  {
    var row := db.campaigns[c];
    && row.id == c
    && row.goalAmount > 0
    && row.imageObjectKey in db.objects && Text.HasPrefix(row.imageObjectKey, "campaigns/")
    && row.fundraiserId in db.users
    && (db.users[row.fundraiserId].deleted ==> row.status !in {Pending, Active})
    && (row.status == Pending ==> row.eventId.None?)
    && (row.eventId.None? <==> row.contractAddress.None?)
    && LiveChainDataCheck(row)
    && (row.eventId.Some? ==> exists result :: (c, result) in db.deployments && RecordedFrom(db, c, result))
  }

  predicate UniqueRows(campaigns: map<UUID, Campaign>) {
    forall c, d :: c in campaigns && d in campaigns && c != d ==>
      && !HasKey(campaigns[c], campaigns[d].fundraiserId, campaigns[d].idempotencyKey)
      && (campaigns[c].eventId.Some? ==> campaigns[c].eventId != campaigns[d].eventId)
      && (campaigns[c].contractAddress.Some? ==> campaigns[c].contractAddress != campaigns[d].contractAddress)
  }

  /** Every creation event belongs to a campaign. */
  predicate EventOwned(db: Db, e: UUID)
    requires e in db.events
  {
    db.events[e].kind == CampaignCreated ==> exists c :: c in db.campaigns && db.campaigns[c].eventId == Some(e)
  }

  predicate EventsUnique(events: map<UUID, BlockchainEvent>) {
    forall d, e :: d in events && e in events && d != e ==> !SameLog(events[d], events[e])
  }

  /** Dropping this message loses nothing: it is not a task for a campaign that still waits for it. */
  predicate SafeToDrop(cfg: Config, db: Db, body: Message) {
    var read := Decode(body);
    && read.Ok?
    && read.value.chainId == cfg.workerChainId
    && read.value.campaignId in db.campaigns
    && TaskMatchesCampaign(read.value, db.campaigns[read.value.campaignId])
    ==> db.campaigns[read.value.campaignId].status != Pending
  }

  predicate MessageInv(cfg: Config, db: Db, mid: nat)
    requires mid in db.messages
  {
    && TargetStored(cfg, db, db.messages[mid].body)
    && (db.messages[mid].state == Acked ==> SafeToDrop(cfg, db, db.messages[mid].body))
  }

  predicate DeploymentInv(cfg: Config, d: (UUID, DeploymentResult)) {
    cfg.stub ==> StubDeployer.Deploy(d.0, d.1.eventCreatedAt) == Some(d.1)
  }

  ghost predicate DbInv(cfg: Config, db: Db) {
    && (forall c :: c in db.campaigns ==> RowInv(db, c))
    && UniqueRows(db.campaigns)
    && (forall e :: e in db.events ==> EventOwned(db, e))
    && EventsUnique(db.events)
    && (forall mid :: mid in db.messages ==> MessageInv(cfg, db, mid))
    && (forall d :: d in db.deployments ==> DeploymentInv(cfg, d))
  }

  // ---- Processes ----

  predicate LiveFundraiser(db: Db, f: UUID) {
    f in db.users && db.users[f].role == Fundraiser && !db.users[f].deleted
  }

  /** A row on its way into the table. */
  predicate NewRow(db: Db, input: CreateCampaignInput, row: Campaign) {
    && FromInput(input, row)
    && row.imageObjectKey in db.objects && Text.HasPrefix(row.imageObjectKey, "campaigns/")
    && row.status == Pending && row.eventId.None? && row.contractAddress.None?
    && row.id !in db.campaigns
  }

  /** A copy of a stored row, possibly with an outdated status. */
  predicate StoredRow(db: Db, input: CreateCampaignInput, row: Campaign) {
    && FromInput(input, row)
    && row.id in db.campaigns
    && SameCreationFields(row, db.campaigns[row.id])
  }

  predicate Reading(cfg: Config, db: Db, mid: nat, task: CampaignDeploymentTask) {
    && mid in db.messages
    && Decode(db.messages[mid].body) == Ok(task)
    && task.chainId == cfg.workerChainId
    && task.campaignId in db.campaigns
  }

  predicate Recording(cfg: Config, db: Db, mid: nat, task: CampaignDeploymentTask, eventId: UUID, result: DeploymentResult) {
    && Reading(cfg, db, mid, task)
    && (task.campaignId, result) in db.deployments
    && CompletionArgumentsValid(eventId, result)
    && db.campaigns[task.campaignId].status == Pending
  }

  predicate ProcInv(cfg: Config, db: Db, p: Proc) {
    match p
    case Promoting(input, id, _) =>
      Canonical(input.imageObjectKey, Campaigns).Some? && id !in db.campaigns
    case Requesting(input, request, _) => NewRow(db, input, request)
    case CreateLocked(input, request, _) => NewRow(db, input, request) && LiveFundraiser(db, request.fundraiserId)
    case Inserting(input, request, minimumEndAt) =>
      && NewRow(db, input, request) && LiveFundraiser(db, request.fundraiserId)
      && !KeyTaken(db.campaigns, request.fundraiserId, request.idempotencyKey)
      && minimumEndAt <= request.endAt
    case InsertSkipped(_, _) => false
    case Inserted(input, row, minimumEndAt) =>
      && NewRow(db, input, row) && LiveFundraiser(db, row.fundraiserId)
      && !KeyTaken(db.campaigns, row.fundraiserId, row.idempotencyKey)
      && row.goalAmount > 0 && minimumEndAt <= row.endAt
    case Replaying(input, row) => StoredRow(db, input, row)
    case Discarding(input, row) => StoredRow(db, input, row)
    case Publishing(input, row) => StoredRow(db, input, row)
    case Created(input, row) => StoredRow(db, input, row)
    case Conflicted(input, existing) =>
      && existing.id in db.campaigns && SameCreationFields(existing, db.campaigns[existing.id])
      && existing.idempotencyKey == Text.TrimSpace(input.idempotencyKey)
      && !FromInput(input, existing)
    case CreateFailed(_) => true
    case Deleting(_) => true
    case DeleteLocked(f) => LiveFundraiser(db, f)
    case DeleteCleared(f) => LiveFundraiser(db, f) && !OwnsUndeletable(db.campaigns, f)
    case DeleteDone(f) => true
    case DeleteRefused => true
    case Received(mid) => mid in db.messages
    case Loading(mid, task) => Reading(cfg, db, mid, task)
    case Deploying(mid, task) => Reading(cfg, db, mid, task)
    case Deployed(mid, task, result) => Reading(cfg, db, mid, task) && (task.campaignId, result) in db.deployments
    case Completing(mid, task, eventId, result) => Recording(cfg, db, mid, task, eventId, result)
    case EventWritten(mid, task, eventId, result) =>
      && Recording(cfg, db, mid, task, eventId, result)
      && EventKeyFree(db.events, eventId, CreationEvent(result))
    case RowWritten(mid, task, eventId, result) =>
      && Recording(cfg, db, mid, task, eventId, result)
      && EventKeyFree(db.events, eventId, CreationEvent(result))
      && AddressFree(db.campaigns, task.campaignId, Text.TrimSpace(result.contractAddress))
    case Acking(mid) => mid in db.messages && SafeToDrop(cfg, db, db.messages[mid].body)
    case Nacking(mid) => mid in db.messages
    case Handled(mid) => true
    case Crashed => true
  }

  /** Locks and unique indexes keep every pair of processes apart. */
  predicate Separate(procs: map<nat, Proc>) {
    forall p, q :: p in procs && q in procs && p != q ==> !Exclusive(procs[p], procs[q])
  }

  ghost predicate Inv(cfg: Config, s: State) {
    && DbInv(cfg, s.db)
    && Separate(s.procs)
    && forall pid :: pid in s.procs ==> ProcInv(cfg, s.db, s.procs[pid])
  }
}
