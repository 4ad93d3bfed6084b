/** From single steps to whole runs of the deployment pipeline. */
module PipelineRuns {
  import opened Domain
  import opened CampaignRules
  import opened DeploymentCodec
  import opened Pipeline
  import opened PipelineInvariant
  import opened PipelineProof
  import opened PipelineCommits
  import opened PipelineSteps
  import ObjectKeys
  import Text

  /** Steps of API calls that change a process and nothing else. */
  predicate ApiOnly(a: Action) {
    || a.ABeginCreate? || a.AStatImage? || a.ALockFundraiser? || a.ALockFundraiserNone? || a.ALookupFound?
    || a.ALookupNone? || a.AInsertCampaign? || a.AResolveConflict? || a.ACommitReplay?
    || a.ABeginDelete? || a.ALockForDelete? || a.ACheckForDelete?
  }

  /** The same for workers. */
  predicate WorkerOnly(a: Action) {
    || a.AReadTask? || a.ALoadCampaign? || a.ALockCampaign? || a.AInsertEvent? || a.AUpdateCampaign?
    || a.AWorkerError? || a.ACrash?
  }

  lemma ApiStepKeeps(cfg: Config, s: State, a: Action, s': State)
    requires Inv(cfg, s) && ApiOnly(a) && Next(cfg, s, a, s')
    ensures Inv(cfg, s')
  {
    hide Inv, BeginCreate, StatImage, LockFundraiser, LockFundraiserNone, LookupFound, LookupNone, InsertCampaign,
         ResolveConflict, CommitReplay, BeginDelete, LockForDelete, CheckForDelete;
    match a
    case ABeginCreate(pid, input, id) => BeginCreateKeeps(cfg, s, s', pid, input, id);
    case AStatImage(pid, now) => StatImageKeeps(cfg, s, s', pid, now);
    case ALockFundraiser(pid, f) => LockFundraiserKeeps(cfg, s, s', pid, f);
    case ALockFundraiserNone(pid) => EndKeeps(cfg, s, s', pid);
    case ALookupFound(pid, c) => LookupFoundKeeps(cfg, s, s', pid, c);
    case ALookupNone(pid) => LookupNoneKeeps(cfg, s, s', pid);
    case AInsertCampaign(pid, createdAt) => InsertCampaignKeeps(cfg, s, s', pid, createdAt);
    case AResolveConflict(pid, c) => ResolveConflictNeverHappens(cfg, s, s', pid, c);
    case ACommitReplay(pid) => CommitReplayKeeps(cfg, s, s', pid);
    case ABeginDelete(pid, wallet) => BeginDeleteKeeps(cfg, s, s', pid, wallet);
    case ALockForDelete(pid, f) => LockForDeleteKeeps(cfg, s, s', pid, f);
    case ACheckForDelete(pid) => CheckForDeleteKeeps(cfg, s, s', pid);
  }

  lemma WorkerStepKeeps(cfg: Config, s: State, a: Action, s': State)
    requires Inv(cfg, s) && WorkerOnly(a) && Next(cfg, s, a, s')
    ensures Inv(cfg, s')
  {
    hide Inv, ReadTask, LoadCampaign, LockCampaign, InsertEvent, UpdateCampaign, WorkerError, Crash;
    match a
    case AReadTask(pid) => ReadTaskKeeps(cfg, s, s', pid);
    case ALoadCampaign(pid) => LoadCampaignKeeps(cfg, s, s', pid);
    case ALockCampaign(pid, eventId) => LockCampaignKeeps(cfg, s, s', pid, eventId);
    case AInsertEvent(pid) => InsertEventKeeps(cfg, s, s', pid);
    case AUpdateCampaign(pid) => UpdateCampaignKeeps(cfg, s, s', pid);
    case AWorkerError(pid) => WorkerErrorKeeps(cfg, s, s', pid);
    case ACrash(pid) => EndKeeps(cfg, s, s', pid);
  }

  lemma ApiStepSameDb(cfg: Config, s: State, a: Action, s': State)
    requires ApiOnly(a) && Next(cfg, s, a, s')
    ensures s'.db == s.db
  {
    hide MayEnter, ObjectKeys.Canonical, MatchesFundraiser, SameCreationPayload, KeyTaken, OwnsUndeletable, RequestAt;
  }

  lemma WorkerStepSameDb(cfg: Config, s: State, a: Action, s': State)
    requires WorkerOnly(a) && Next(cfg, s, a, s')
    ensures s'.db == s.db
  {
    hide MayEnter, Decode, CompletionArgumentsValid, EventKeyFree, AddressFree, JudgeLoaded, JudgeLocked;
  }

  lemma SharedStepKeeps(cfg: Config, s: State, a: Action, s': State)
    requires Inv(cfg, s) && !ApiOnly(a) && !WorkerOnly(a) && Next(cfg, s, a, s')
    ensures Inv(cfg, s') && Evolves(s.db, s'.db)
  {
    hide Inv, Evolves, CopyImage, CommitCreate, DiscardStaging, Publish, CommitDelete, Deliver, Redeliver, DeployContract,
         CommitDeployment, Settle, RegisterUser, ExternalUpdate, ExternalEvent, ForeignPublish, ObjectsChange;
    match a
    case ACopyImage(pid, now) => CopyImageKeeps(cfg, s, s', pid, now);
    case ACommitCreate(pid, seen) => CommitCreateKeeps(cfg, s, s', pid, seen);
    case ADiscardStaging(pid, removed) => DiscardStagingKeeps(cfg, s, s', pid, removed);
    case APublish(pid, mid, accepted, confirmed) => PublishKeeps(cfg, s, s', pid, mid, accepted, confirmed);
    case ACommitDelete(pid) => CommitDeleteKeeps(cfg, s, s', pid);
    case ADeliver(pid, mid) => DeliverKeeps(cfg, s, s', pid, mid);
    case ARedeliver(mid) => RedeliverKeeps(cfg, s, s', mid);
    case ADeployContract(pid, result, seen) => DeployContractKeeps(cfg, s, s', pid, result, seen);
    case ACommitDeployment(pid, seen) => CommitDeploymentKeeps(cfg, s, s', pid, seen);
    case ASettle(pid, reached) => SettleKeeps(cfg, s, s', pid, reached);
    case ARegisterUser(id, user) => RegisterUserKeeps(cfg, s, s', id, user);
    case AExternalUpdate(c, row) => ExternalUpdateKeeps(cfg, s, s', c, row);
    case AExternalEvent(e, event) => ExternalEventKeeps(cfg, s, s', e, event);
    case AForeignPublish(mid, body) => ForeignPublishKeeps(cfg, s, s', mid, body);
    case AObjectsChange(added, gone) => ObjectsChangeKeeps(cfg, s, s', added, gone);
  }

  /** Every step keeps the invariant and takes nothing back. */
  lemma StepKeeps(cfg: Config, s: State, s': State)
    requires Inv(cfg, s) && Step(cfg, s, s')
    ensures Inv(cfg, s') && Evolves(s.db, s'.db)
  {
    hide Inv, Evolves, Next;
    var a :| Next(cfg, s, a, s');
    if ApiOnly(a) {
      ApiStepKeeps(cfg, s, a, s');
      ApiStepSameDb(cfg, s, a, s');
      EvolvesReflexive(s.db);
    } else if WorkerOnly(a) {
      WorkerStepKeeps(cfg, s, a, s');
      WorkerStepSameDb(cfg, s, a, s');
      EvolvesReflexive(s.db);
    } else {
      SharedStepKeeps(cfg, s, a, s');
    }
  }

  lemma InitHolds(cfg: Config, s: State)
    requires Init(s)
    ensures Inv(cfg, s)
  {
  }

  /** The invariant holds in every state of every run. */
  lemma {:induction false} InvOverRun(cfg: Config, run: seq<State>, i: nat)
    requires IsRun(cfg, run) && i < |run|
    ensures Inv(cfg, run[i])
  {
    hide Inv, Step, Init;
    if i == 0 {
      InitHolds(cfg, run[0]);
    } else {
      InvOverRun(cfg, run, i - 1);
      assert Step(cfg, run[i - 1], run[i - 1 + 1]);
      StepKeeps(cfg, run[i - 1], run[i]);
    }
  }

  lemma EvolvesTransitive(a: Db, b: Db, c: Db)
    requires Evolves(a, b) && Evolves(b, c)
    ensures Evolves(a, c)
  {
    hide Text.HasPrefix;
  }

  /** Over any stretch of a run nothing committed is lost or taken back. */
  lemma {:induction false} EvolvesOverRun(cfg: Config, run: seq<State>, i: nat, j: nat)
    requires IsRun(cfg, run) && i <= j < |run|
    ensures Evolves(run[i].db, run[j].db)
    decreases j - i
  {
    hide Inv, Step, Init, Evolves;
    if i == j {
      EvolvesReflexive(run[i].db);
    } else {
      EvolvesOverRun(cfg, run, i, j - 1);
      InvOverRun(cfg, run, j - 1);
      assert Step(cfg, run[j - 1], run[j - 1 + 1]);
      StepKeeps(cfg, run[j - 1], run[j]);
      EvolvesTransitive(run[i].db, run[j - 1].db, run[j].db);
    }
  }
}
