/** What the deployment pipeline guarantees in every run. */
module PipelineTheorems {
  import opened Options
  import opened Uuid
  import opened Timestamp
  import opened Domain
  import opened ObjectKeys
  import opened CampaignRules
  import opened CampaignRepository
  import opened CampaignService
  import opened DeploymentCodec
  import opened Pipeline
  import opened PipelineInvariant
  import opened PipelineProof
  import opened PipelineCommits
  import opened PipelineSteps
  import opened PipelineRuns
  import opened PipelineOwners
  import ObjectStore
  import StubDeployer
  import Text

  // ---- No task is lost ----

  /** A task for the workers' chain that agrees with its stored, still pending campaign. */
  predicate Awaited(cfg: Config, db: Db, body: Message) {
    var read := Decode(body);
    && read.Ok?
    && read.value.chainId == cfg.workerChainId
    && read.value.campaignId in db.campaigns
    && TaskMatchesCampaign(read.value, db.campaigns[read.value.campaignId])
    && db.campaigns[read.value.campaignId].status == Pending
  }

  /** In every state of every run an awaited message is queued or in flight. */
  lemma NoTaskLost(cfg: Config, run: seq<State>, i: nat, mid: nat)
    requires IsRun(cfg, run) && i < |run|
    requires mid in run[i].db.messages && Awaited(cfg, run[i].db, run[i].db.messages[mid].body)
    ensures run[i].db.messages[mid].state.Queued? || run[i].db.messages[mid].state.InFlight?
  {
    hide Inv, Decode, IsRun;
    InvOverRun(cfg, run, i);
    StoredMessage(cfg, run[i], mid);
  }

  /** The message Create publishes for a campaign with a whole-second end time survives, whatever
      crashes, nacks and redeliveries follow, until the campaign has left pending. */
  lemma PublishedTaskSurvives(cfg: Config, run: seq<State>, i: nat, j: nat, pid: nat, mid: nat)
    requires IsRun(cfg, run) && i < j < |run|
    requires Publish(cfg, run[i], run[i + 1], pid, mid, true, true)
    requires
      var Publishing(input, row) := run[i].procs[pid];
      && NeedsDeployment(row) && WholeSecond(row.endAt) && 0 <= YearOf(row.endAt) <= 9999
      && !Text.Blank(input.walletAddress) && cfg.apiChainId == cfg.workerChainId > 0
    ensures
      var row := run[i].procs[pid].row;
      && mid in run[j].db.messages && row.id in run[j].db.campaigns
      && (run[j].db.campaigns[row.id].status == Pending ==>
            run[j].db.messages[mid].state.Queued? || run[j].db.messages[mid].state.InFlight?)
  {
    hide Inv, Decode, Encode, IsRun, Evolves, FromInput, NeedsDeployment, YearOf, Text.TrimSpace;
    var Publishing(input, row) := run[i].procs[pid];
    var wallet := Text.TrimSpace(input.walletAddress);
    var body := Encode(TaskFor(row, wallet, cfg.apiChainId));
    assert run[i + 1].db.messages[mid].body == body;
    InvOverRun(cfg, run, i);
    Local(cfg, run[i], pid);
    PublishingCopy(cfg, run[i].db, run[i].procs[pid]);
    StoredCampaign(cfg, run[i], row.id);
    PublishedIsReadBack(cfg, run[i].db, row, wallet);
    EvolvesOverRun(cfg, run, i, j);
    EvolvesOverRun(cfg, run, i + 1, j);
    SurvivesEvolution(run[i].db, run[j].db, row);
    BodySurvives(run[i + 1].db, run[j].db, mid);
    if run[j].db.campaigns[row.id].status == Pending {
      NoTaskLost(cfg, run, j, mid);
    }
  }

  lemma PublishingCopy(cfg: Config, db: Db, p: Proc)
    requires p.Publishing? && ProcInv(cfg, db, p)
    ensures p.row.id in db.campaigns && SameCreationFields(p.row, db.campaigns[p.row.id])
  {
    hide FromInput, SameCreationPayload;
  }

  lemma PublishedIsReadBack(cfg: Config, db: Db, row: Campaign, wallet: string)
    requires row.id in db.campaigns && SameCreationFields(row, db.campaigns[row.id]) && RowInv(db, row.id)
    requires WholeSecond(row.endAt) && 0 <= YearOf(row.endAt) <= 9999
    requires !Text.Blank(wallet) && cfg.apiChainId > 0
    ensures
      var task := TaskFor(row, wallet, cfg.apiChainId);
      Decode(Encode(task)) == Ok(task.(fundraiserWallet := Text.TrimSpace(wallet)))
  {
    hide Decode, Encode, YearOf, Text.TrimSpace, Text.HasPrefix;
    DecodeEncode(TaskFor(row, wallet, cfg.apiChainId));
  }

  lemma SurvivesEvolution(db: Db, db': Db, row: Campaign)
    requires Evolves(db, db') && row.id in db.campaigns && SameCreationFields(row, db.campaigns[row.id])
    ensures row.id in db'.campaigns && SameCreationFields(row, db'.campaigns[row.id])
  {
    hide UserEvolves, Text.HasPrefix, CampaignsEvolve;
    EvolvesParts(db, db');
    StoredCopyKept(db, db', row);
  }

  lemma BodySurvives(db: Db, db': Db, mid: nat)
    requires Evolves(db, db') && mid in db.messages
    ensures mid in db'.messages && db'.messages[mid].body == db.messages[mid].body
  {
    hide UserEvolves, Text.HasPrefix, CampaignsEvolve;
  }

  /** The condition is exact: a delivered message that is not awaited is acknowledged by the
      handler's own three next steps, even while its campaign is pending. A sub-second end time is
      such a case, by DeploymentCodec.PublishedTaskMatches. */
  lemma UnawaitedTaskIsDropped(cfg: Config, s: State, pid: nat, mid: nat) returns (s1: State, s2: State, s3: State)
    requires pid in s.procs && s.procs[pid] == Received(mid)
    requires mid in s.db.messages && s.db.messages[mid].state == InFlight(pid)
    requires !Awaited(cfg, s.db, s.db.messages[mid].body)
    ensures Step(cfg, s, s1) && (s2 == s1 || Step(cfg, s1, s2)) && Step(cfg, s2, s3)
    ensures s3.db.campaigns == s.db.campaigns
    ensures mid in s3.db.messages && s3.db.messages[mid].state == Acked
  {
    hide Decode, Next, Awaited;
    var body := s.db.messages[mid].body;
    if Decode(body).Err? || Decode(body).value.chainId != cfg.workerChainId {
      s1 := To(s, pid, Acking(mid));
      s2 := s1;
      ReadStep(cfg, s, s1, pid);
    } else {
      s1 := To(s, pid, Loading(mid, Decode(body).value));
      s2 := To(s1, pid, Acking(mid));
      ReadStep(cfg, s, s1, pid);
      SkippedWhenUnawaited(cfg, s.db, body);
      LoadStep(cfg, s1, s2, pid);
    }
    s3 := To(s2, pid, Handled(mid))
          .(db := s2.db.(messages := s2.db.messages[mid := s2.db.messages[mid].(state := Acked)]));
    AckStep(cfg, s2, s3, pid);
  }

  lemma ReadStep(cfg: Config, s: State, s': State, pid: nat)
    requires ReadTask(cfg, s, s', pid)
    ensures Step(cfg, s, s')
  {
    hide ReadTask;
    assert Next(cfg, s, AReadTask(pid), s');
  }

  lemma LoadStep(cfg: Config, s: State, s': State, pid: nat)
    requires LoadCampaign(s, s', pid)
    ensures Step(cfg, s, s')
  {
    hide LoadCampaign;
    assert Next(cfg, s, ALoadCampaign(pid), s');
  }

  lemma AckStep(cfg: Config, s: State, s': State, pid: nat)
    requires Settle(s, s', pid, true)
    ensures Step(cfg, s, s')
  {
    hide Settle;
    assert Next(cfg, s, ASettle(pid, true), s');
  }

  lemma SkippedWhenUnawaited(cfg: Config, db: Db, body: Message)
    requires !Awaited(cfg, db, body) && Decode(body).Ok? && Decode(body).value.chainId == cfg.workerChainId
    ensures
      var task := Decode(body).value;
      task.campaignId in db.campaigns ==> JudgeLoaded(task, db.campaigns[task.campaignId]) == Skip
  {
    hide Decode, HasAddress;
  }

  // ---- Activation ----

  predicate Activates(s: State, s': State, c: UUID) {
    && c in s.db.campaigns && s.db.campaigns[c].status != Active
    && c in s'.db.campaigns && s'.db.campaigns[c].status == Active
  }

  /** A campaign is activated at most once in a run, whatever the number of workers and deliveries. */
  lemma ActivatedAtMostOnce(cfg: Config, run: seq<State>, i: nat, j: nat, c: UUID)
    requires IsRun(cfg, run) && i + 1 < |run| && j + 1 < |run|
    requires Activates(run[i], run[i + 1], c) && Activates(run[j], run[j + 1], c)
    ensures i == j
  {
    hide Inv, IsRun, Evolves;
    if i < j {
      ActivationIsFinal(cfg, run, i, j, c);
    } else if j < i {
      ActivationIsFinal(cfg, run, j, i, c);
    }
  }

  lemma ActivationIsFinal(cfg: Config, run: seq<State>, i: nat, j: nat, c: UUID)
    requires IsRun(cfg, run) && i < j && j + 1 < |run|
    requires Activates(run[i], run[i + 1], c)
    ensures !Activates(run[j], run[j + 1], c)
  {
    hide Inv, IsRun, Evolves;
    EvolvesOverRun(cfg, run, i + 1, j);
    EvolvesOverRun(cfg, run, j, j + 1);
    RowEvolves(run[i + 1].db, run[j].db, c);
    RowEvolves(run[j].db, run[j + 1].db, c);
  }

  lemma RowEvolves(db: Db, db': Db, c: UUID)
    requires Evolves(db, db') && c in db.campaigns
    ensures c in db'.campaigns && CampaignEvolves(db.campaigns[c], db'.campaigns[c])
  {
    hide CampaignEvolves, UserEvolves, Text.HasPrefix;
  }

  /** Once recorded, the event and the address of a campaign never change. */
  lemma ChainDataFrozen(cfg: Config, run: seq<State>, i: nat, j: nat, c: UUID)
    requires IsRun(cfg, run) && i <= j < |run|
    requires c in run[i].db.campaigns && run[i].db.campaigns[c].eventId.Some?
    ensures c in run[j].db.campaigns
    ensures run[j].db.campaigns[c].eventId == run[i].db.campaigns[c].eventId
    ensures run[j].db.campaigns[c].contractAddress == run[i].db.campaigns[c].contractAddress
    ensures run[j].db.campaigns[c].contractAddress.Some?
  {
    hide Inv, IsRun, Evolves;
    InvOverRun(cfg, run, i);
    StoredCampaign(cfg, run[i], c);
    EvolvesOverRun(cfg, run, i, j);
    RowEvolves(run[i].db, run[j].db, c);
  }

  /** A pending campaign has neither event nor address; a campaign that has been activated carries
      the trimmed, non-blank address and the event of a deploy call made for that same campaign. */
  lemma ChainDataComesFromDeployment(cfg: Config, run: seq<State>, i: nat, c: UUID)
    requires IsRun(cfg, run) && i < |run| && c in run[i].db.campaigns
    ensures
      var row := run[i].db.campaigns[c];
      && (row.status == Pending ==> row.eventId.None? && row.contractAddress.None?)
      && (row.status == Active ==> row.eventId.Some? && row.contractAddress.Some?)
      && (row.contractAddress.Some? ==>
            exists result :: (c, result) in run[i].db.deployments && RecordedFrom(run[i].db, c, result))
  {
    hide Inv, IsRun, RecordedFrom;
    InvOverRun(cfg, run, i);
    StoredCampaign(cfg, run[i], c);
  }

  /** Creation events and activated campaigns correspond one to one, so no campaign has two. */
  lemma OneCreationEventEach(cfg: Config, run: seq<State>, i: nat, e: UUID)
    requires IsRun(cfg, run) && i < |run|
    requires e in run[i].db.events && run[i].db.events[e].kind == CampaignCreated
    ensures exists c :: c in run[i].db.campaigns && run[i].db.campaigns[c].eventId == Some(e)
    ensures forall c, d ::
              (&& c in run[i].db.campaigns && run[i].db.campaigns[c].eventId == Some(e)
               && d in run[i].db.campaigns && run[i].db.campaigns[d].eventId == Some(e)) ==> c == d
  {
    hide Inv, IsRun, RowInv, MessageInv;
    InvOverRun(cfg, run, i);
    Committed(cfg, run[i]);
    assert EventOwned(run[i].db, e);
  }

  // ---- Deleted fundraisers ----

  /** A soft-deleted fundraiser owns no pending or active campaign, in any interleaving. */
  lemma DeletedOwnsNothingLive(cfg: Config, run: seq<State>, i: nat, c: UUID)
    requires IsRun(cfg, run) && i < |run| && c in run[i].db.campaigns
    ensures
      var row := run[i].db.campaigns[c];
      && row.fundraiserId in run[i].db.users
      && (run[i].db.users[row.fundraiserId].deleted ==> row.status !in {Pending, Active})
  {
    hide Inv, IsRun;
    InvOverRun(cfg, run, i);
    StoredCampaign(cfg, run[i], c);
  }

  /** So no step activates a campaign of a deleted fundraiser, and none deletes the fundraiser of a
      campaign that is being activated. */
  lemma NeverActivatedForDeleted(cfg: Config, run: seq<State>, i: nat, c: UUID)
    requires IsRun(cfg, run) && i + 1 < |run| && Activates(run[i], run[i + 1], c)
    ensures
      var f := run[i + 1].db.campaigns[c].fundraiserId;
      && f in run[i].db.users && !run[i].db.users[f].deleted
      && f in run[i + 1].db.users && !run[i + 1].db.users[f].deleted
  {
    hide Inv, IsRun, Evolves;
    DeletedOwnsNothingLive(cfg, run, i + 1, c);
    DeletedOwnsNothingLive(cfg, run, i, c);
    EvolvesOverRun(cfg, run, i, i + 1);
    RowEvolves(run[i].db, run[i + 1].db, c);
    UserStays(run[i].db, run[i + 1].db, run[i].db.campaigns[c].fundraiserId);
  }

  lemma UserStays(db: Db, db': Db, f: UUID)
    requires Evolves(db, db') && f in db.users
    ensures f in db'.users && UserEvolves(db.users[f], db'.users[f])
  {
    hide CampaignsEvolve, Text.HasPrefix;
  }

  // ---- Idempotent creation ----

  /** One row per fundraiser and idempotency key, however many clients create at once. */
  lemma OneRowPerKey(cfg: Config, run: seq<State>, i: nat, c: UUID, d: UUID)
    requires IsRun(cfg, run) && i < |run|
    requires c in run[i].db.campaigns && d in run[i].db.campaigns
    requires run[i].db.campaigns[c].fundraiserId == run[i].db.campaigns[d].fundraiserId
    requires run[i].db.campaigns[c].idempotencyKey == run[i].db.campaigns[d].idempotencyKey
    ensures c == d
  {
    hide Inv, IsRun, RowInv, MessageInv;
    InvOverRun(cfg, run, i);
    Committed(cfg, run[i]);
  }

  /** Every client that got a campaign got the stored row for its key, with the payload it asked
      for; every client that got a conflict met a row under its key with another payload. Either way
      the row belongs to a fundraiser that the client's wallet spells. */
  lemma CallersGetTheRow(cfg: Config, run: seq<State>, i: nat, pid: nat)
    requires IsRun(cfg, run) && i < |run| && pid in run[i].procs
    ensures
      var p := run[i].procs[pid];
      && (p.Created? ==>
            && p.row.id in run[i].db.campaigns && SameCreationFields(p.row, run[i].db.campaigns[p.row.id])
            && FromInput(p.input, p.row)
            && Spells(run[i].db.users, p.input.walletAddress, p.row.fundraiserId))
      && (p.Conflicted? ==>
            && p.existing.id in run[i].db.campaigns
            && SameCreationFields(p.existing, run[i].db.campaigns[p.existing.id])
            && p.existing.idempotencyKey == Text.TrimSpace(p.input.idempotencyKey)
            && !FromInput(p.input, p.existing)
            && Spells(run[i].db.users, p.input.walletAddress, p.existing.fundraiserId))
  {
    hide Inv, IsRun, FromInput, SameCreationFields, Text.TrimSpace, Spells;
    InvOverRun(cfg, run, i);
    Local(cfg, run[i], pid);
    OwnersOverRun(cfg, run, i);
    assert OwnerInv(run[i].db.users, run[i].procs[pid]);
  }

  /** Two clients of one fundraiser with the same key that both succeed hold the same campaign. */
  lemma SameKeySameCampaign(cfg: Config, run: seq<State>, i: nat, p: nat, q: nat)
    requires IsRun(cfg, run) && i < |run| && p in run[i].procs && q in run[i].procs
    requires run[i].procs[p].Created? && run[i].procs[q].Created?
    requires run[i].procs[p].row.fundraiserId == run[i].procs[q].row.fundraiserId
    requires Text.TrimSpace(run[i].procs[p].input.idempotencyKey) == Text.TrimSpace(run[i].procs[q].input.idempotencyKey)
    ensures run[i].procs[p].row.id == run[i].procs[q].row.id
  {
    hide IsRun, SameCreationPayload, Text.TrimSpace, ObjectKeys.Canonical;
    CallersGetTheRow(cfg, run, i, p);
    CallersGetTheRow(cfg, run, i, q);
    OneRowPerKey(cfg, run, i, run[i].procs[p].row.id, run[i].procs[q].row.id);
  }

  /** The branch that resolves a conflict after the insert is never entered. */
  lemma PostInsertConflictUnreachable(cfg: Config, run: seq<State>, i: nat, pid: nat)
    requires IsRun(cfg, run) && i < |run| && pid in run[i].procs
    ensures !run[i].procs[pid].InsertSkipped?
  {
    hide Inv, IsRun;
    InvOverRun(cfg, run, i);
    Local(cfg, run[i], pid);
  }

  // ---- Every commit is a serial call ----

  function TablesOf(db: Db): Tables {
    Tables(db.users, db.campaigns, db.events)
  }

  /** The commit of an activation has the effect of CompleteDeployment run alone at that moment. */
  lemma ActivationIsSerial(cfg: Config, s: State, s': State, pid: nat, seen: bool)
    requires Inv(cfg, s) && CommitDeployment(s, s', pid, seen)
    ensures
      var RowWritten(_, task, eventId, result) := s.procs[pid];
      CompleteEffect(TablesOf(s.db), task.campaignId, eventId, result) == (TablesOf(s'.db), Recorded)
  {
    hide Inv, ProcInv, EventKeyFree, AddressFree, CompletionArgumentsValid, HasAddress, Text.TrimSpace, CreationEvent;
    Local(cfg, s, pid);
    RowWrittenIsActivatable(cfg, s.db, s.procs[pid]);
  }

  /** The commit of a new campaign has the effect of CreatePending run alone at that moment. */
  lemma CreationIsSerial(cfg: Config, s: State, s': State, pid: nat, seen: bool)
    requires Inv(cfg, s) && CommitCreate(s, s', pid, seen)
    ensures
      var Inserted(_, row, minimumEndAt) := s.procs[pid];
      && Finds(s.db.campaigns, row.fundraiserId, row.idempotencyKey, None)
      && CreateEffect(TablesOf(s.db), row, Some(row.fundraiserId), None, minimumEndAt, row.createdAt)
         == (TablesOf(s'.db), Ok(row))
  {
    hide Inv, ProcInv, KeyTaken, Text.HasPrefix, LiveFundraiser;
    Local(cfg, s, pid);
    InsertedIsInsertable(cfg, s.db, s.procs[pid]);
    assert s.procs[pid].row.(fundraiserId := s.procs[pid].row.fundraiserId, createdAt := s.procs[pid].row.createdAt)
        == s.procs[pid].row;
  }

  /** The commit of a deletion has the effect of DeleteProfile run alone at that moment. */
  lemma DeletionIsSerial(cfg: Config, s: State, s': State, pid: nat)
    requires Inv(cfg, s) && CommitDelete(s, s', pid)
    ensures DeleteEffect(TablesOf(s.db), s.procs[pid].fundraiserId) == (TablesOf(s'.db), true)
    ensures
      var f := s.procs[pid].fundraiserId;
      && f in s.db.users && s'.db.users == s.db.users[f := s.db.users[f].(deleted := true)]
      && s'.db.campaigns == s.db.campaigns && s'.db.events == s.db.events
      && forall c :: c in s.db.campaigns && s.db.campaigns[c].fundraiserId == f ==> s.db.campaigns[c].status !in {Pending, Active}
  {
    hide Inv, ProcInv;
    Local(cfg, s, pid);
    ClearedOwnsNothing(cfg, s.db, s.procs[pid]);
  }

  // ---- Replaying a committed Create ----

  /** The transaction of a Create call commits, with a new row or with the existing one. */
  predicate CreateCommits(s: State, s': State, pid: nat) {
    CommitCreate(s, s', pid, true) || CommitCreate(s, s', pid, false) || CommitReplay(s, s', pid)
  }

  lemma CommittedRow(cfg: Config, s: State, s': State, pid: nat)
    requires Inv(cfg, s) && Inv(cfg, s') && CreateCommits(s, s', pid)
    ensures
      var p := s.procs[pid];
      && FromInput(p.input, p.row)
      && p.row.id in s'.db.campaigns && SameCreationFields(p.row, s'.db.campaigns[p.row.id])
  {
    hide Inv, FromInput, Text.HasPrefix, KeyTaken, LiveFundraiser, SameCreationPayload;
    Local(cfg, s, pid);
    SamePayloadReflexive(s.procs[pid].row);
  }

  lemma SamePayloadReflexive(row: Campaign)
    ensures SameCreationPayload(row, row)
  {
  }

  /** The lookup of a replay can only find the committed row. */
  lemma ReplayFinds(cfg: Config, s: State, row: Campaign, found: Option<UUID>)
    requires Inv(cfg, s) && row.id in s.db.campaigns && SameCreationFields(row, s.db.campaigns[row.id])
    requires Finds(s.db.campaigns, row.fundraiserId, row.idempotencyKey, found)
    ensures found == Some(row.id)
  {
    hide Inv, RowInv, MessageInv, SameCreationPayload;
    Committed(cfg, s);
    assert HasKey(s.db.campaigns[row.id], row.fundraiserId, row.idempotencyKey);
  }

  /** The image is still there, so promotion is a no-op even when staging has been discarded. */
  lemma ReplayPromotes(cfg: Config, s: State, input: CreateCampaignInput, row: Campaign)
    requires Inv(cfg, s) && row.id in s.db.campaigns && SameCreationFields(row, s.db.campaigns[row.id])
    requires FromInput(input, row)
    ensures
      var staging := Text.TrimSpace(input.imageObjectKey);
      && Canonical(staging, Campaigns) == Some(row.imageObjectKey)
      && ObjectStore.Promoted(s.db.objects, staging, row.imageObjectKey) == (s.db.objects, None)
  {
    hide Inv, Canonical, Text.TrimSpace, Text.HasPrefix;
    StoredCampaign(cfg, s, row.id);
    CanonicalOfTrimmed(input.imageObjectKey);
    var staging := Text.TrimSpace(input.imageObjectKey);
    CanonicalLeavesStaging(staging, Campaigns);
    assert Text.TrimSpace(staging) == staging;
    PrefixesDiffer(staging, row.imageObjectKey);
  }

  lemma PrefixesDiffer(staging: string, canonical: string)
    requires Text.HasPrefix(staging, STAGING_PREFIX) && Text.HasPrefix(canonical, "campaigns/")
    ensures staging != "" && canonical != "" && staging != canonical
  {
    hide Text.TrimSpace;
    NameSpacesDisjoint(canonical);
  }

  /** What a replay answers once its row is known to be there. */
  lemma ReplayAnswer(
    chainId: int, t: Tables, objects: set<string>, input: CreateCampaignInput, id: UUID, now: Instant, createdAt: Instant,
    f: UUID, row: Campaign)
    requires chainId > 0 && row.id in t.campaigns && SameCreationFields(row, t.campaigns[row.id]) && FromInput(input, row)
    requires
      var staging := Text.TrimSpace(input.imageObjectKey);
      && Canonical(staging, Campaigns) == Some(row.imageObjectKey)
      && ObjectStore.Promoted(objects, staging, row.imageObjectKey) == (objects, None)
    ensures
      var current := t.campaigns[row.id];
      CreateCall(chainId, t, objects, input, id, now, createdAt, Some(f), Some(row.id))
      == CreateReply(
           t,
           ObjectStore.Removed(objects, Text.TrimSpace(input.imageObjectKey)),
           if NeedsDeployment(current) then Some(Encode(TaskFor(current, Text.TrimSpace(input.walletAddress), chainId))) else None,
           Ok(current))
  {
    hide Canonical, Text.TrimSpace, Encode, NeedsDeployment, ObjectStore.Promoted, ObjectStore.Removed;
    SamePayloadAsRequest(input, id, row, t.campaigns[row.id]);
  }

  lemma SamePayloadAsRequest(input: CreateCampaignInput, id: UUID, row: Campaign, current: Campaign)
    requires FromInput(input, row) && SameCreationFields(row, current)
    ensures SameCreationPayload(current, RequestedCampaign(id, input, row.imageObjectKey))
  {
    hide Canonical, Text.TrimSpace;
  }

  /** The fundraiser is live, and no other live fundraiser spells the wallet. */
  predicate OnlyOwner(users: map<UUID, User>, walletAddress: string, f: UUID) {
    && f in users && !users[f].deleted
    && forall g :: g in users && MatchesFundraiser(users[g], walletAddress) ==> g == f
  }

  /** What the two queries of a call may return. */
  predicate QueriesAnswer(db: Db, input: CreateCampaignInput, f: Option<UUID>, found: Option<UUID>) {
    && Selects(db.users, input.walletAddress, f)
    && (f.Some? ==> Finds(db.campaigns, f.value, Text.TrimSpace(input.idempotencyKey), found))
    && (f.None? ==> found.None?)
  }

  /** The fundraiser of a committed row still spells the wallet of the call. */
  lemma OwnerStillSpells(cfg: Config, run: seq<State>, i: nat, j: nat, pid: nat)
    requires IsRun(cfg, run) && i < j < |run| && CreateCommits(run[i], run[i + 1], pid)
    ensures Spells(run[j].db.users, run[i].procs[pid].input.walletAddress, run[i].procs[pid].row.fundraiserId)
  {
    hide Inv, IsRun, Evolves, Text.TrimSpace, Text.Lower;
    OwnersOverRun(cfg, run, i);
    assert OwnerInv(run[i].db.users, run[i].procs[pid]);
    EvolvesOverRun(cfg, run, i, j);
    UserStays(run[i].db, run[j].db, run[i].procs[pid].row.fundraiserId);
  }

  lemma OwnerIsSelected(users: map<UUID, User>, walletAddress: string, owner: UUID, f: Option<UUID>)
    requires Spells(users, walletAddress, owner) && OnlyOwner(users, walletAddress, owner)
    requires Selects(users, walletAddress, f)
    ensures f == Some(owner)
  {
    hide Text.TrimSpace, Text.Lower;
    assert MatchesFundraiser(users[owner], walletAddress);
  }

  /** Once a Create has committed, the same call succeeds at any later point of the run at which the
      fundraiser is live and alone in spelling the wallet: whatever the clock says, with staging
      discarded, it finds that fundraiser and that campaign, returns the campaign as it then is,
      changes no table, and publishes the task again exactly when the campaign is pending without
      an address. */
  lemma ReplaySucceeds(
    cfg: Config, run: seq<State>, i: nat, j: nat, pid: nat, id: UUID, now: Instant, createdAt: Instant,
    f: Option<UUID>, found: Option<UUID>)
    requires IsRun(cfg, run) && i < j < |run| && cfg.apiChainId > 0
    requires CreateCommits(run[i], run[i + 1], pid)
    requires OnlyOwner(run[j].db.users, run[i].procs[pid].input.walletAddress, run[i].procs[pid].row.fundraiserId)
    requires QueriesAnswer(run[j].db, run[i].procs[pid].input, f, found)
    ensures
      var p := run[i].procs[pid];
      && f == Some(p.row.fundraiserId)
      && p.row.id in run[j].db.campaigns && found == Some(p.row.id)
      && var current := run[j].db.campaigns[p.row.id];
      && SameCreationFields(p.row, current)
      && CreateCall(cfg.apiChainId, TablesOf(run[j].db), run[j].db.objects, p.input, id, now, createdAt, f, found)
         == CreateReply(
              TablesOf(run[j].db),
              ObjectStore.Removed(run[j].db.objects, Text.TrimSpace(p.input.imageObjectKey)),
              if NeedsDeployment(current)
              then Some(Encode(TaskFor(current, Text.TrimSpace(p.input.walletAddress), cfg.apiChainId))) else None,
              Ok(current))
  {
    hide Inv, IsRun, Evolves, FromInput, Finds, Selects, CreateCall, Canonical, Text.TrimSpace, Spells, OnlyOwner,
         ObjectStore.Promoted, ObjectStore.Removed, Encode, NeedsDeployment, SameCreationFields;
    var p := run[i].procs[pid];
    OwnerStillSpells(cfg, run, i, j, pid);
    OwnerIsSelected(run[j].db.users, p.input.walletAddress, p.row.fundraiserId, f);
    StillStored(cfg, run, i, j, pid);
    InvOverRun(cfg, run, j);
    KeyOfInput(p.input, p.row);
    ReplayFinds(cfg, run[j], p.row, found);
    ReplayPromotes(cfg, run[j], p.input, p.row);
    ReplayAnswer(cfg.apiChainId, TablesOf(run[j].db), run[j].db.objects, p.input, id, now, createdAt, f.value, p.row);
  }

  /** A committed row is still there, as what its input asks for. */
  lemma StillStored(cfg: Config, run: seq<State>, i: nat, j: nat, pid: nat)
    requires IsRun(cfg, run) && i < j < |run| && CreateCommits(run[i], run[i + 1], pid)
    ensures
      var p := run[i].procs[pid];
      && FromInput(p.input, p.row)
      && p.row.id in run[j].db.campaigns && SameCreationFields(p.row, run[j].db.campaigns[p.row.id])
  {
    hide Inv, IsRun, Evolves, FromInput, SameCreationFields;
    InvOverRun(cfg, run, i);
    InvOverRun(cfg, run, i + 1);
    CommittedRow(cfg, run[i], run[i + 1], pid);
    EvolvesOverRun(cfg, run, i + 1, j);
    SurvivesEvolution(run[i + 1].db, run[j].db, run[i].procs[pid].row);
  }

  /** When the owner is deleted, or another live fundraiser spells the wallet, the queries may return
      something else, and then the call does not answer with the committed campaign. */
  lemma ReplayMayFail(
    cfg: Config, run: seq<State>, i: nat, j: nat, pid: nat, id: UUID, now: Instant, createdAt: Instant)
    returns (f: Option<UUID>, found: Option<UUID>)
    requires IsRun(cfg, run) && i < j < |run| && cfg.apiChainId > 0
    requires CreateCommits(run[i], run[i + 1], pid)
    requires !OnlyOwner(run[j].db.users, run[i].procs[pid].input.walletAddress, run[i].procs[pid].row.fundraiserId)
    ensures QueriesAnswer(run[j].db, run[i].procs[pid].input, f, found)
    ensures
      var p := run[i].procs[pid];
      && p.row.id in run[j].db.campaigns
      && CreateCall(cfg.apiChainId, TablesOf(run[j].db), run[j].db.objects, p.input, id, now, createdAt, f, found).result
         != Ok(run[j].db.campaigns[p.row.id])
  {
    hide Inv, IsRun, Evolves, FromInput, CreateCall, Canonical, Text.TrimSpace, Text.Lower, SameCreationPayload, RowInv, DbInv;
    var p := run[i].procs[pid];
    var db := run[j].db;
    StillStored(cfg, run, i, j, pid);
    OwnerStillSpells(cfg, run, i, j, pid);
    f := OtherAnswer(db.users, p.input.walletAddress, p.row.fundraiserId);
    found := if f.Some? then SomeAnswer(db.campaigns, f.value, Text.TrimSpace(p.input.idempotencyKey)) else None;
    InvOverRun(cfg, run, j);
    IdsMatch(cfg, run[j]);
    SuccessfulCreate(cfg.apiChainId, TablesOf(db), db.objects, p.input, id, now, createdAt, f, found);
  }

  lemma IdsMatch(cfg: Config, s: State)
    requires Inv(cfg, s)
    ensures forall c :: c in s.db.campaigns ==> s.db.campaigns[c].id == c
  {
    hide Inv;
    forall c | c in s.db.campaigns
      ensures s.db.campaigns[c].id == c
    {
      StoredCampaign(cfg, s, c);
    }
  }

  /** An answer of the fundraiser query other than the owner. */
  ghost function OtherAnswer(users: map<UUID, User>, walletAddress: string, owner: UUID): (f: Option<UUID>)
    requires Spells(users, walletAddress, owner) && !OnlyOwner(users, walletAddress, owner)
    ensures Selects(users, walletAddress, f) && f != Some(owner)
  {
    if g :| g in users && MatchesFundraiser(users[g], walletAddress) && g != owner then Some(g) else None
  }

  ghost function SomeAnswer(campaigns: map<UUID, Campaign>, f: UUID, key: string): (found: Option<UUID>)
    ensures Finds(campaigns, f, key, found)
  {
    if c :| c in campaigns && HasKey(campaigns[c], f, key) then Some(c) else None
  }

  /** Exactly when a replay is sure to answer with the committed campaign. */
  lemma ReplayExactly(
    cfg: Config, run: seq<State>, i: nat, j: nat, pid: nat, id: UUID, now: Instant, createdAt: Instant)
    requires IsRun(cfg, run) && i < j < |run| && cfg.apiChainId > 0
    requires CreateCommits(run[i], run[i + 1], pid)
    ensures
      var p, db := run[i].procs[pid], run[j].db;
      && p.row.id in db.campaigns
      && ((forall f, found :: QueriesAnswer(db, p.input, f, found) ==>
             CreateCall(cfg.apiChainId, TablesOf(db), db.objects, p.input, id, now, createdAt, f, found).result
             == Ok(db.campaigns[p.row.id]))
          <==> OnlyOwner(db.users, p.input.walletAddress, p.row.fundraiserId))
  {
    hide IsRun, CreateCall, OnlyOwner, Selects, SameCreationFields, FromInput, Canonical, Encode, NeedsDeployment;
    var p, db := run[i].procs[pid], run[j].db;
    StillStored(cfg, run, i, j, pid);
    if OnlyOwner(db.users, p.input.walletAddress, p.row.fundraiserId) {
      forall f, found | QueriesAnswer(db, p.input, f, found)
        ensures CreateCall(cfg.apiChainId, TablesOf(db), db.objects, p.input, id, now, createdAt, f, found).result
                == Ok(db.campaigns[p.row.id])
      {
        ReplaySucceeds(cfg, run, i, j, pid, id, now, createdAt, f, found);
      }
    } else {
      var f, found := ReplayMayFail(cfg, run, i, j, pid, id, now, createdAt);
    }
  }

  lemma KeyOfInput(input: CreateCampaignInput, row: Campaign)
    requires FromInput(input, row)
    ensures row.idempotencyKey == Text.TrimSpace(input.idempotencyKey)
  {
    hide Canonical, Text.TrimSpace;
  }

  // ---- Stub mode ----

  /** In stub mode a recorded address and hash are functions of the campaign id, so a redelivery
      after a crash records what the first attempt would have. */
  lemma StubChainData(cfg: Config, run: seq<State>, i: nat, c: UUID)
    requires IsRun(cfg, run) && i < |run| && cfg.stub
    requires c in run[i].db.campaigns && run[i].db.campaigns[c].contractAddress.Some?
    ensures run[i].db.campaigns[c].contractAddress == Some(StubDeployer.ContractAddress(c))
    ensures |run[i].db.campaigns[c].contractAddress.value| == 42
    ensures run[i].db.campaigns[c].eventId.Some? && run[i].db.campaigns[c].eventId.value in run[i].db.events
    ensures
      var event := run[i].db.events[run[i].db.campaigns[c].eventId.value];
      event.txHash == StubDeployer.TxHash(c) && event.logIndex == 0 && event.blockNumber == 1
  {
    hide Inv, IsRun, StubDeployer.ContractAddress, StubDeployer.TxHash, Text.TrimSpace, RowInv, MessageInv;
    InvOverRun(cfg, run, i);
    ChainDataComesFromDeployment(cfg, run, i, c);
    Committed(cfg, run[i]);
    var result :| (c, result) in run[i].db.deployments && RecordedFrom(run[i].db, c, result);
    assert DeploymentInv(cfg, (c, result));
    StubDeployer.AddressShape(c);
  }

  /** FindPublicByContractAddress: the rows its query selects. */
  predicate PubliclyFound(db: Db, query: string, c: UUID) {
    && c in db.campaigns
    && db.campaigns[c].contractAddress.Some?
    && Text.Lower(db.campaigns[c].contractAddress.value) == Text.Lower(Text.TrimSpace(query))
    && db.campaigns[c].fundraiserId in db.users
    && db.users[db.campaigns[c].fundraiserId].role == Fundraiser
    && !db.users[db.campaigns[c].fundraiserId].deleted
    && db.campaigns[c].status in {Active, Completed, Cancelled}
  }

  /** In stub mode a case-insensitive lookup by address finds at most one campaign. */
  lemma StubLookupIsUnique(cfg: Config, run: seq<State>, i: nat, query: string, c: UUID, d: UUID)
    requires IsRun(cfg, run) && i < |run| && cfg.stub
    requires PubliclyFound(run[i].db, query, c) && PubliclyFound(run[i].db, query, d)
    ensures c == d
  {
    hide IsRun, StubDeployer.ContractAddress, StubDeployer.TxHash, Text.TrimSpace, Text.Lower;
    StubChainData(cfg, run, i, c);
    StubChainData(cfg, run, i, d);
    StubDeployer.AddressInjective(c, d);
  }
}
