/** The steps of the deployment pipeline that change shared data preserve the invariant. */
module PipelineCommits {
  import opened Options
  import opened Uuid
  import opened Domain
  import opened ObjectKeys
  import opened CampaignRules
  import opened DeploymentCodec
  import opened Pipeline
  import opened PipelineInvariant
  import opened PipelineProof
  import Text

  // ---- What any step may do to the shared data ----

  predicate CampaignEvolves(a: Campaign, b: Campaign) {
    && SameCreationFields(a, b)
    && (b.status == Pending ==> a.status == Pending)
    && (b.status == Active ==> a.status in {Pending, Active})
    && (a.eventId.Some? ==> b.eventId == a.eventId)
    && (a.contractAddress.Some? ==> b.contractAddress == a.contractAddress)
  }

  predicate UserEvolves(a: User, b: User) {
    a.role == b.role && a.walletAddress == b.walletAddress && (a.deleted ==> b.deleted)
  }

  predicate CampaignsEvolve(a: map<UUID, Campaign>, b: map<UUID, Campaign>) {
    forall c :: c in a ==> c in b && CampaignEvolves(a[c], b[c])
  }

  /** Nothing committed is ever lost or taken back. */
  predicate Evolves(db: Db, db': Db) {
    && (forall f :: f in db.users ==> f in db'.users && UserEvolves(db.users[f], db'.users[f]))
    && CampaignsEvolve(db.campaigns, db'.campaigns)
    && (forall e :: e in db.events ==> e in db'.events && db'.events[e] == db.events[e])
    && (forall m :: m in db.messages ==> m in db'.messages && db'.messages[m].body == db.messages[m].body)
    && db.deployments <= db'.deployments
    && (forall key :: key in db.objects && Text.HasPrefix(key, "campaigns/") ==> key in db'.objects)
  }

  /** The step left alone everything that q has locked or reserved. */
  predicate Undisturbed(db: Db, db': Db, q: Proc) {
    && (NewCampaignId(q).Some? ==> NewCampaignId(q).value !in db'.campaigns || NewCampaignId(q).value in db.campaigns)
    && (UserLock(q).Some? ==> UserUndisturbed(db, db', UserLock(q).value))
    && (CampaignLock(q).Some? && CampaignLock(q).value in db.campaigns ==>
          CampaignLock(q).value in db'.campaigns
          && db'.campaigns[CampaignLock(q).value] == db.campaigns[CampaignLock(q).value])
    && (NewEvent(q).Some? && EventKeyFree(db.events, NewEvent(q).value.0, NewEvent(q).value.1) ==>
          EventKeyFree(db'.events, NewEvent(q).value.0, NewEvent(q).value.1))
    && (NewAddress(q).Some? && CampaignLock(q).Some?
        && AddressFree(db.campaigns, CampaignLock(q).value, NewAddress(q).value) ==>
          AddressFree(db'.campaigns, CampaignLock(q).value, NewAddress(q).value))
  }

  /** The fundraiser row is as it was, and it owns no campaign it did not own before. */
  predicate UserUndisturbed(db: Db, db': Db, f: UUID) {
    && (f in db.users ==> f in db'.users && db'.users[f] == db.users[f])
    && forall c :: c in db'.campaigns && db'.campaigns[c].fundraiserId == f ==> c in db.campaigns
  }

  lemma SafeToDropKept(cfg: Config, db: Db, db': Db, body: Message)
    requires CampaignsEvolve(db.campaigns, db'.campaigns)
    requires TargetStored(cfg, db, body) && SafeToDrop(cfg, db, body)
    ensures SafeToDrop(cfg, db', body)
  {
    hide Decode;
  }

  lemma UserLockKeeps(db: Db, db': Db, f: UUID, key: string)
    requires Evolves(db, db') && UserUndisturbed(db, db', f)
    ensures LiveFundraiser(db, f) ==> LiveFundraiser(db', f)
    ensures !KeyTaken(db.campaigns, f, key) ==> !KeyTaken(db'.campaigns, f, key)
    ensures !OwnsUndeletable(db.campaigns, f) ==> !OwnsUndeletable(db'.campaigns, f)
  {
    hide Text.HasPrefix, SameCreationPayload;
  }

  lemma StoredCopyKept(db: Db, db': Db, row: Campaign)
    requires CampaignsEvolve(db.campaigns, db'.campaigns)
    requires row.id in db.campaigns && SameCreationFields(row, db.campaigns[row.id])
    ensures row.id in db'.campaigns && SameCreationFields(row, db'.campaigns[row.id])
  {
  }

  lemma NewRowKept(db: Db, db': Db, input: CreateCampaignInput, row: Campaign)
    requires Evolves(db, db') && NewRow(db, input, row)
    requires row.id !in db'.campaigns || row.id in db.campaigns
    ensures NewRow(db', input, row)
  {
    hide FromInput, Text.HasPrefix;
  }

  predicate OnTheWayIn(p: Proc) {
    p.Promoting? || p.Requesting? || p.CreateLocked? || p.Inserting? || p.InsertSkipped? || p.Inserted?
  }

  predicate Recorded(p: Proc) {
    p.Replaying? || p.Discarding? || p.Publishing? || p.Created? || p.Conflicted?
  }

  predicate InCompletion(p: Proc) {
    p.Completing? || p.EventWritten? || p.RowWritten?
  }

  lemma OnTheWayInKept(cfg: Config, db: Db, db': Db, q: Proc)
    requires OnTheWayIn(q) && Evolves(db, db') && Undisturbed(db, db', q) && ProcInv(cfg, db, q)
    ensures ProcInv(cfg, db', q)
  {
    hide NewRow, Canonical, KeyTaken, OwnsUndeletable, LiveFundraiser, UserUndisturbed, Evolves;
    match q
    case Promoting(_, _, _) =>
    case Requesting(input, request, _) =>
      NewRowKept(db, db', input, request);
    case CreateLocked(input, request, _) =>
      NewRowKept(db, db', input, request);
      UserLockKeeps(db, db', request.fundraiserId, request.idempotencyKey);
    case Inserting(input, request, _) =>
      NewRowKept(db, db', input, request);
      UserLockKeeps(db, db', request.fundraiserId, request.idempotencyKey);
    case Inserted(input, row, _) =>
      NewRowKept(db, db', input, row);
      UserLockKeeps(db, db', row.fundraiserId, row.idempotencyKey);
  }

  lemma InCompletionKept(cfg: Config, db: Db, db': Db, q: Proc)
    requires InCompletion(q) && Evolves(db, db') && Undisturbed(db, db', q) && ProcInv(cfg, db, q)
    ensures ProcInv(cfg, db', q)
  {
    hide Decode, Text.TrimSpace, CompletionArgumentsValid, EventKeyFree, AddressFree, UserUndisturbed, CreationEvent,
         CampaignsEvolve, UserEvolves;
    RecordingKept(cfg, db, db', q.mid, q.task, q.eventId, q.result);
  }

  lemma ReadingKept(cfg: Config, db: Db, db': Db, mid: nat, task: CampaignDeploymentTask)
    requires Evolves(db, db') && Reading(cfg, db, mid, task)
    ensures Reading(cfg, db', mid, task)
  {
    hide Decode, CampaignEvolves, UserEvolves, Text.HasPrefix;
  }

  lemma RecordingKept(cfg: Config, db: Db, db': Db, mid: nat, task: CampaignDeploymentTask, eventId: UUID, result: DeploymentResult)
    requires Evolves(db, db') && Recording(cfg, db, mid, task, eventId, result)
    requires task.campaignId in db'.campaigns && db'.campaigns[task.campaignId] == db.campaigns[task.campaignId]
    ensures Recording(cfg, db', mid, task, eventId, result)
  {
    hide Reading, CampaignEvolves, UserEvolves, Text.HasPrefix, CompletionArgumentsValid;
    ReadingKept(cfg, db, db', mid, task) by {
      assert Reading(cfg, db, mid, task);
    }
  }

  lemma StoredRowKept(db: Db, db': Db, input: CreateCampaignInput, row: Campaign)
    requires Evolves(db, db') && StoredRow(db, input, row)
    ensures StoredRow(db', input, row)
  {
    hide SameCreationFields, FromInput, CampaignsEvolve, UserEvolves;
    StoredCopyKept(db, db', row);
  }

  lemma RecordedKept(cfg: Config, db: Db, db': Db, q: Proc)
    requires Recorded(q) && Evolves(db, db') && ProcInv(cfg, db, q)
    ensures ProcInv(cfg, db', q)
  {
    hide StoredRow, SameCreationFields, FromInput, CampaignsEvolve, UserEvolves, Text.TrimSpace;
    if q.Conflicted? {
      StoredCopyKept(db, db', q.existing);
    } else {
      StoredRowKept(db, db', q.input, q.row);
    }
  }

  lemma HandlingKept(cfg: Config, db: Db, db': Db, q: Proc)
    requires q.Loading? || q.Deploying? || q.Deployed? || q.Acking?
    requires Evolves(db, db') && ProcInv(cfg, db, q)
    requires forall mid :: mid in db.messages ==> MessageInv(cfg, db, mid)
    ensures ProcInv(cfg, db', q)
  {
    hide Decode, CampaignsEvolve, UserEvolves, SafeToDrop, TargetStored, Reading;
    match q
    case Loading(mid, task) => ReadingKept(cfg, db, db', mid, task);
    case Deploying(mid, task) => ReadingKept(cfg, db, db', mid, task);
    case Deployed(mid, task, _) => ReadingKept(cfg, db, db', mid, task);
    case Acking(mid) =>
      assert MessageInv(cfg, db, mid);
      SafeToDropKept(cfg, db, db', db.messages[mid].body);
  }

  /** A process whose locks were respected keeps its local invariant. */
  lemma ProcKept(cfg: Config, db: Db, db': Db, q: Proc)
    requires Evolves(db, db') && Undisturbed(db, db', q)
    requires ProcInv(cfg, db, q)
    requires forall mid :: mid in db.messages ==> MessageInv(cfg, db, mid)
    ensures ProcInv(cfg, db', q)
  {
    hide Decode, Canonical, CampaignsEvolve, UserEvolves, OwnsUndeletable, LiveFundraiser, UserUndisturbed, MessageInv,
         StoredRow, SafeToDrop, SameCreationFields, FromInput, Reading, Recording, EventKeyFree, AddressFree, NewRow, KeyTaken;
    if OnTheWayIn(q) {
      OnTheWayInKept(cfg, db, db', q);
    } else if InCompletion(q) {
      InCompletionKept(cfg, db, db', q);
    } else if Recorded(q) {
      RecordedKept(cfg, db, db', q);
    } else if q.Loading? || q.Deploying? || q.Deployed? || q.Acking? {
      HandlingKept(cfg, db, db', q);
    } else if q.DeleteLocked? || q.DeleteCleared? {
      UserLockKeeps(db, db', q.fundraiserId, "");
    }
  }

  // ---- Committed data carried over a step ----

  lemma RowKept(db: Db, db': Db, c: UUID)
    requires Evolves(db, db') && c in db.campaigns && RowInv(db, c)
    requires db'.campaigns[c] == db.campaigns[c]
    requires var f := db.campaigns[c].fundraiserId; f in db.users && db'.users[f] == db.users[f]
    ensures RowInv(db', c)
  {
    hide Text.HasPrefix, Text.TrimSpace, CampaignEvolves, UserEvolves;
    if db.campaigns[c].eventId.Some? {
      var result :| (c, result) in db.deployments && RecordedFrom(db, c, result);
      assert RecordedFrom(db', c, result);
    }
  }

  lemma MessageKept(cfg: Config, db: Db, db': Db, mid: nat)
    requires CampaignsEvolve(db.campaigns, db'.campaigns)
    requires mid in db.messages && MessageInv(cfg, db, mid)
    requires mid in db'.messages && db'.messages[mid].body == db.messages[mid].body
    requires db'.messages[mid].state == Acked ==> db.messages[mid].state == Acked
    ensures MessageInv(cfg, db', mid)
  {
    hide Decode, SafeToDrop;
    if db'.messages[mid].state == Acked {
      SafeToDropKept(cfg, db, db', db.messages[mid].body);
    }
  }

  lemma EventKept(db: Db, db': Db, e: UUID)
    requires CampaignsEvolve(db.campaigns, db'.campaigns)
    requires e in db.events && EventOwned(db, e)
    requires e in db'.events && db'.events[e] == db.events[e]
    ensures EventOwned(db', e)
  {
    if db.events[e].kind == CampaignCreated {
      var c :| c in db.campaigns && db.campaigns[c].eventId == Some(e);
      assert CampaignEvolves(db.campaigns[c], db'.campaigns[c]);
    }
  }

  /** Steps that touch neither campaigns nor events. */
  lemma TablesKept(cfg: Config, db: Db, db': Db)
    requires DbInv(cfg, db) && Evolves(db, db')
    requires db'.campaigns == db.campaigns && db'.events == db.events
    requires forall f :: f in db.users ==> db'.users[f] == db.users[f]
    requires forall mid :: mid in db'.messages ==> MessageInv(cfg, db', mid)
    requires forall d :: d in db'.deployments ==> DeploymentInv(cfg, d)
    ensures DbInv(cfg, db')
  {
    hide RowInv, MessageInv, DeploymentInv, EventOwned, UniqueRows, EventsUnique;
    forall c | c in db'.campaigns
      ensures RowInv(db', c)
    {
      assert RowInv(db, c);
      RowKept(db, db', c) by { OwnerStored(db, c); }
    }
    forall e | e in db'.events
      ensures EventOwned(db', e)
    {
      assert EventOwned(db, e);
      EventKept(db, db', e);
    }
  }

  lemma OwnerStored(db: Db, c: UUID)
    requires c in db.campaigns && RowInv(db, c)
    ensures db.campaigns[c].fundraiserId in db.users
  {
  }

  // ---- Assembling a step ----

  lemma SharedStep(cfg: Config, s: State, db': Db, pid: nat, p: Proc)
    requires Inv(cfg, s) && Evolves(s.db, db') && DbInv(cfg, db') && ProcInv(cfg, db', p)
    requires MayEnter(s, pid, p) || (pid in s.procs && HoldsNoMore(p, s.procs[pid]))
    requires forall q :: q in s.procs && q != pid ==> Undisturbed(s.db, db', s.procs[q])
    ensures Inv(cfg, To(s, pid, p).(db := db'))
  {
    hide ProcInv, Separate, RowInv, MessageInv, MayEnter, HoldsNoMore, Undisturbed, Evolves;
    forall q | q in s.procs && q != pid
      ensures ProcInv(cfg, db', s.procs[q])
    {
      ProcKept(cfg, s.db, db', s.procs[q]);
    }
    EverythingMoves(cfg, s, pid, p, db');
  }

  lemma EnvironmentStep(cfg: Config, s: State, db': Db)
    requires Inv(cfg, s) && Evolves(s.db, db') && DbInv(cfg, db')
    requires forall q :: q in s.procs ==> Undisturbed(s.db, db', s.procs[q])
    ensures Inv(cfg, s.(db := db'))
  {
    hide ProcInv, Separate, RowInv, MessageInv, Undisturbed, Evolves;
    forall q | q in s.procs
      ensures ProcInv(cfg, db', s.procs[q])
    {
      ProcKept(cfg, s.db, db', s.procs[q]);
    }
  }

  /** Steps that leave users, campaigns and events alone disturb nobody. */
  lemma NobodyDisturbed(db: Db, db': Db, q: Proc)
    requires db'.users == db.users && db'.campaigns == db.campaigns && db'.events == db.events
    ensures Undisturbed(db, db', q)
  {
    hide EventKeyFree, AddressFree, UserLock, CampaignLock, NewCampaignId, NewEvent, NewAddress;
  }
}
