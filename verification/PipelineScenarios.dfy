/** Runs of the deployment pipeline, from the empty database on, that show what it does not promise. */
module PipelineScenarios {
  import opened Options
  import opened Uuid
  import opened Timestamp
  import opened Domain
  import opened ObjectKeys
  import opened CampaignRules
  import opened CampaignService
  import opened DeploymentCodec
  import opened Pipeline
  import opened PipelineOwners
  import opened PipelineTheorems
  import StubDeployer
  import Text

  // ---- A campaign is created and published ----

  /** One client of one fundraiser: the stored wallet, the call, the ids and the clocks. */
  datatype Scene = Scene(
    owner: UUID, wallet: string, input: CreateCampaignInput, id: UUID, now: Instant, createdAt: Instant)

  /** The call is one that Create accepts: a known wallet, a presigned image, a positive goal, and an
      end time after the lead time. */
  predicate Acceptable(x: Scene) {
    && Text.Lower(x.wallet) == Text.Lower(Text.TrimSpace(x.input.walletAddress))
    && Canonical(x.input.imageObjectKey, Campaigns).Some?
    && x.input.goalAmount > 0
    && x.now + CAMPAIGN_DEPLOYMENT_LEAD_TIME <= TruncateToMicrosecond(x.input.endAt)
  }

  function ImageKey(x: Scene): string
    requires Acceptable(x)
  {
    Canonical(x.input.imageObjectKey, Campaigns).value
  }

  function Requested(x: Scene): Campaign
    requires Acceptable(x)
  {
    RequestedCampaign(x.id, x.input, ImageKey(x))
  }

  function StoredRow(x: Scene): Campaign
    requires Acceptable(x)
  {
    Requested(x).(fundraiserId := x.owner, createdAt := x.createdAt)
  }

  function MinimumEndAt(x: Scene): Instant {
    x.now + CAMPAIGN_DEPLOYMENT_LEAD_TIME
  }

  function Body(cfg: Config, x: Scene): Message
    requires Acceptable(x)
  {
    Encode(TaskFor(StoredRow(x), Text.TrimSpace(x.input.walletAddress), cfg.apiChainId))
  }

  /** The states of the story, by what is stored and where the client is. */
  function At(x: Scene, p: Proc, objects: set<string>, campaigns: map<UUID, Campaign>, messages: map<nat, QueueMessage>)
    : State
  {
    State(Db(map[x.owner := User(Fundraiser, x.wallet, false)], campaigns, map[], objects, messages, {}), map[0 := p])
  }

  function Staging(x: Scene): set<string> {
    {Text.TrimSpace(x.input.imageObjectKey)}
  }

  function Promoted(x: Scene): set<string>
    requires Acceptable(x)
  {
    Staging(x) + {ImageKey(x)}
  }

  lemma Grow(cfg: Config, run: seq<State>, a: Action, s: State)
    requires IsRun(cfg, run) && Next(cfg, run[|run| - 1], a, s)
    ensures IsRun(cfg, run + [s])
  {
    hide Next;
    var longer := run + [s];
    forall i | 0 <= i < |longer| - 1
      ensures Step(cfg, longer[i], longer[i + 1])
    {
      if i < |run| - 1 {
        assert longer[i] == run[i] && longer[i + 1] == run[i + 1];
      } else {
        assert Next(cfg, longer[i], a, longer[i + 1]);
      }
    }
  }

  function Beginning(x: Scene): State {
    State(Db(map[], map[], map[], Staging(x), map[], {}), map[])
  }

  function Registered(x: Scene): State {
    State(Db(map[x.owner := User(Fundraiser, x.wallet, false)], map[], map[], Staging(x), map[], {}), map[])
  }

  lemma Registers(cfg: Config, x: Scene)
    ensures Init(Beginning(x))
    ensures Next(cfg, Beginning(x), ARegisterUser(x.owner, User(Fundraiser, x.wallet, false)), Registered(x))
  {
    hide Text.TrimSpace;
  }

  lemma Begins(cfg: Config, x: Scene)
    requires Acceptable(x)
    ensures Next(cfg, Registered(x), ABeginCreate(0, x.input, x.id), At(x, Promoting(x.input, x.id, false), Staging(x), map[], map[]))
  {
    hide Text.TrimSpace, Canonical;
  }

  lemma Stats(cfg: Config, x: Scene)
    requires Acceptable(x)
    ensures Next(cfg, At(x, Promoting(x.input, x.id, false), Staging(x), map[], map[]), AStatImage(0, x.now),
                 At(x, Promoting(x.input, x.id, true), Staging(x), map[], map[]))
  {
    hide Text.TrimSpace, Canonical, RequestedCampaign;
    CanonicalLeavesStaging(x.input.imageObjectKey, Campaigns);
  }

  lemma Copies(cfg: Config, x: Scene)
    requires Acceptable(x)
    ensures Next(cfg, At(x, Promoting(x.input, x.id, true), Staging(x), map[], map[]), ACopyImage(0, x.now),
                 At(x, Requesting(x.input, Requested(x), MinimumEndAt(x)), Promoted(x), map[], map[]))
  {
    hide Text.TrimSpace, Canonical, RequestedCampaign;
  }

  lemma Locks(cfg: Config, x: Scene)
    requires Acceptable(x)
    ensures Next(cfg, At(x, Requesting(x.input, Requested(x), MinimumEndAt(x)), Promoted(x), map[], map[]),
                 ALockFundraiser(0, x.owner),
                 At(x, CreateLocked(x.input, Requested(x).(fundraiserId := x.owner), MinimumEndAt(x)), Promoted(x), map[], map[]))
  {
    hide Text.TrimSpace, Canonical, RequestedCampaign, Text.Lower;
  }

  lemma Looks(cfg: Config, x: Scene)
    requires Acceptable(x)
    ensures Next(cfg,
                 At(x, CreateLocked(x.input, Requested(x).(fundraiserId := x.owner), MinimumEndAt(x)), Promoted(x), map[], map[]),
                 ALookupNone(0),
                 At(x, Inserting(x.input, Requested(x).(fundraiserId := x.owner), MinimumEndAt(x)), Promoted(x), map[], map[]))
  {
    hide Text.TrimSpace, Canonical, Text.Lower;
  }

  lemma Inserts(cfg: Config, x: Scene)
    requires Acceptable(x)
    ensures Next(cfg,
                 At(x, Inserting(x.input, Requested(x).(fundraiserId := x.owner), MinimumEndAt(x)), Promoted(x), map[], map[]),
                 AInsertCampaign(0, x.createdAt),
                 At(x, Inserted(x.input, StoredRow(x), MinimumEndAt(x)), Promoted(x), map[], map[]))
  {
    hide Text.TrimSpace, Canonical, Text.Lower;
  }

  lemma StoredId(x: Scene)
    requires Acceptable(x)
    ensures StoredRow(x).id == x.id
  {
    hide Text.TrimSpace, Canonical, Text.Lower;
  }

  lemma Commits(cfg: Config, x: Scene)
    requires Acceptable(x)
    ensures CommitCreate(At(x, Inserted(x.input, StoredRow(x), MinimumEndAt(x)), Promoted(x), map[], map[]),
                         At(x, Discarding(x.input, StoredRow(x)), Promoted(x), map[x.id := StoredRow(x)], map[]), 0, true)
  {
    hide Text.TrimSpace, Canonical, Text.Lower, RequestedCampaign;
    StoredId(x);
  }

  lemma Discards(cfg: Config, x: Scene)
    requires Acceptable(x)
    ensures Next(cfg, At(x, Discarding(x.input, StoredRow(x)), Promoted(x), map[x.id := StoredRow(x)], map[]),
                 ADiscardStaging(0, false),
                 At(x, Publishing(x.input, StoredRow(x)), Promoted(x), map[x.id := StoredRow(x)], map[]))
  {
    hide Text.TrimSpace, Canonical, RequestedCampaign, Text.Lower;
  }

  lemma Publishes(cfg: Config, x: Scene)
    requires Acceptable(x) && cfg.apiChainId > 0
    ensures Publish(cfg, At(x, Publishing(x.input, StoredRow(x)), Promoted(x), map[x.id := StoredRow(x)], map[]),
                    Published(cfg, x), 0, 0, true, true)
  {
    hide Text.TrimSpace, Canonical, Text.Lower, Encode;
  }

  /** The client has its answer and the message is in the queue. */
  function Published(cfg: Config, x: Scene): State
    requires Acceptable(x)
  {
    At(x, Created(x.input, StoredRow(x)), Promoted(x), map[x.id := StoredRow(x)], map[0 := QueueMessage(Body(cfg, x), Queued)])
  }

  /** The run up to the state in which the new row is about to be committed, and the commit. */
  lemma CreatedRun(cfg: Config, x: Scene) returns (run: seq<State>)
    requires Acceptable(x)
    ensures IsRun(cfg, run) && |run| > 1 && CommitCreate(run[|run| - 2], run[|run| - 1], 0, true)
    ensures run[|run| - 2] == At(x, Inserted(x.input, StoredRow(x), MinimumEndAt(x)), Promoted(x), map[], map[])
    ensures run[|run| - 1] == At(x, Discarding(x.input, StoredRow(x)), Promoted(x), map[x.id := StoredRow(x)], map[])
  {
    hide Next, IsRun, At, Acceptable, Staging, Promoted, Requested, Init, CommitCreate;
    Registers(cfg, x);
    run := [Beginning(x)];
    Starts(cfg, run[0]);
    Grow(cfg, run, ARegisterUser(x.owner, User(Fundraiser, x.wallet, false)), Registered(x));
    run := run + [Registered(x)];
    var s := At(x, Promoting(x.input, x.id, false), Staging(x), map[], map[]);
    Begins(cfg, x);
    Grow(cfg, run, ABeginCreate(0, x.input, x.id), s);
    run := run + [s];
    s := At(x, Promoting(x.input, x.id, true), Staging(x), map[], map[]);
    Stats(cfg, x);
    Grow(cfg, run, AStatImage(0, x.now), s);
    run := run + [s];
    s := At(x, Requesting(x.input, Requested(x), MinimumEndAt(x)), Promoted(x), map[], map[]);
    Copies(cfg, x);
    Grow(cfg, run, ACopyImage(0, x.now), s);
    run := run + [s];
    s := At(x, CreateLocked(x.input, Requested(x).(fundraiserId := x.owner), MinimumEndAt(x)), Promoted(x), map[], map[]);
    Locks(cfg, x);
    Grow(cfg, run, ALockFundraiser(0, x.owner), s);
    run := run + [s];
    s := At(x, Inserting(x.input, Requested(x).(fundraiserId := x.owner), MinimumEndAt(x)), Promoted(x), map[], map[]);
    Looks(cfg, x);
    Grow(cfg, run, ALookupNone(0), s);
    run := run + [s];
    s := At(x, Inserted(x.input, StoredRow(x), MinimumEndAt(x)), Promoted(x), map[], map[]);
    Inserts(cfg, x);
    Grow(cfg, run, AInsertCampaign(0, x.createdAt), s);
    run := run + [s];
    s := At(x, Discarding(x.input, StoredRow(x)), Promoted(x), map[x.id := StoredRow(x)], map[]);
    Commits(cfg, x);
    CommitIsNext(cfg, run[|run| - 1], s);
    Grow(cfg, run, ACommitCreate(0, true), s);
    run := run + [s];
  }

  lemma Starts(cfg: Config, s: State)
    requires Init(s)
    ensures IsRun(cfg, [s])
  {
    hide Init;
  }

  lemma CommitIsNext(cfg: Config, s: State, s': State)
    requires CommitCreate(s, s', 0, true)
    ensures Next(cfg, s, ACommitCreate(0, true), s')
  {
    hide CommitCreate;
  }

  lemma PublishIsNext(cfg: Config, s: State, s': State)
    requires Publish(cfg, s, s', 0, 0, true, true)
    ensures Next(cfg, s, APublish(0, 0, true, true), s')
  {
    hide Publish;
  }

  /** The same run continued to the confirmed publish. */
  lemma PublishedRun(cfg: Config, x: Scene) returns (run: seq<State>)
    requires Acceptable(x) && cfg.apiChainId > 0
    ensures IsRun(cfg, run) && |run| > 0 && run[|run| - 1] == Published(cfg, x)
  {
    hide Next, IsRun, At, Acceptable, Promoted, Publish, StoredRow, Body;
    run := CreatedRun(cfg, x);
    var s := At(x, Publishing(x.input, StoredRow(x)), Promoted(x), map[x.id := StoredRow(x)], map[]);
    Discards(cfg, x);
    Grow(cfg, run, ADiscardStaging(0, false), s);
    run := run + [s];
    Publishes(cfg, x);
    PublishIsNext(cfg, s, Published(cfg, x));
    Grow(cfg, run, APublish(0, 0, true, true), Published(cfg, x));
    run := run + [Published(cfg, x)];
  }

  // ---- A sub-second end time ----

  /** A worker holds the message. */
  function Delivered(s: State, pid: nat): State
    requires 0 in s.db.messages
  {
    s.(db := s.db.(messages := s.db.messages[0 := s.db.messages[0].(state := InFlight(pid))]), procs := s.procs[pid := Received(0)])
  }

  lemma Delivers(cfg: Config, s: State, pid: nat)
    requires 0 in s.db.messages && s.db.messages[0].state == Queued && pid !in s.procs
    ensures Next(cfg, s, ADeliver(pid, 0), Delivered(s, pid))
  {
  }

  lemma GrowStep(cfg: Config, run: seq<State>, s: State)
    requires IsRun(cfg, run) && Step(cfg, run[|run| - 1], s)
    ensures IsRun(cfg, run + [s])
  {
    hide Next;
    var a :| Next(cfg, run[|run| - 1], a, s);
    Grow(cfg, run, a, s);
  }

  lemma SubSecondIsUnawaited(cfg: Config, x: Scene)
    requires Acceptable(x) && !WholeSecond(TruncateToMicrosecond(x.input.endAt))
    ensures !Awaited(cfg, Delivered(Published(cfg, x), 1).db, Body(cfg, x))
    ensures !WholeSecond(StoredRow(x).endAt)
  {
    hide Decode, Encode, Canonical, Text.TrimSpace, Text.Lower, Encodable, WholeSecond, TruncateToMicrosecond;
    var row := StoredRow(x);
    var wallet := Text.TrimSpace(x.input.walletAddress);
    SubSecondEndTimeNeverMatches(row, wallet, cfg.apiChainId);
    PointsAtItself(row, wallet, cfg.apiChainId);
  }

  lemma PointsAtItself(row: Campaign, wallet: string, chainId: int)
    ensures
      var read := Decode(Encode(TaskFor(row, wallet, chainId)));
      read.Ok? ==> read.value.campaignId == row.id
  {
    hide Decode, Encode, Encodable;
    DecodeEncode(TaskFor(row, wallet, chainId));
  }

  lemma PublishedFacts(cfg: Config, x: Scene)
    requires Acceptable(x)
    ensures
      var s := Published(cfg, x);
      && s.db.messages == map[0 := QueueMessage(Body(cfg, x), Queued)]
      && s.db.campaigns == map[x.id := StoredRow(x)]
      && 1 !in s.procs && 2 !in s.procs
    ensures StoredRow(x).id == x.id && StoredRow(x).contractAddress.None? && StoredRow(x).status == Pending
  {
    hide Canonical, Text.TrimSpace, Text.Lower, Body;
  }

  /** A run that ends with an unawaited message at its handler goes on to the acknowledgement. */
  lemma Drops(cfg: Config, run: seq<State>, s: State, pid: nat) returns (run': seq<State>)
    requires IsRun(cfg, run) && run[|run| - 1] == s && pid in s.procs && s.procs[pid] == Received(0)
    requires 0 in s.db.messages && s.db.messages[0].state == InFlight(pid) && !Awaited(cfg, s.db, s.db.messages[0].body)
    ensures IsRun(cfg, run') && run <= run' && run'[|run'| - 1].db.campaigns == s.db.campaigns
    ensures 0 in run'[|run'| - 1].db.messages && run'[|run'| - 1].db.messages[0].state == Acked
  {
    hide IsRun, Awaited, Step;
    var s1, s2, s3 := UnawaitedTaskIsDropped(cfg, s, pid, 0);
    GrowStep(cfg, run, s1);
    run' := run + [s1];
    if s2 != s1 {
      GrowStep(cfg, run', s2);
      run' := run' + [s2];
    }
    GrowStep(cfg, run', s3);
    run' := run' + [s3];
  }

  /** Every accepted call with a sub-second end time can end like this: the client has its campaign,
      the publish was confirmed, the message has been acknowledged, and the campaign is pending. */
  lemma SubSecondTaskIsLost(cfg: Config, x: Scene) returns (run: seq<State>, k: nat)
    requires Acceptable(x) && cfg.apiChainId > 0 && !WholeSecond(TruncateToMicrosecond(x.input.endAt))
    ensures IsRun(cfg, run) && k < |run| && run[k] == Published(cfg, x)
    ensures
      var last := run[|run| - 1];
      && x.id in last.db.campaigns && last.db.campaigns[x.id] == StoredRow(x) && StoredRow(x).status == Pending
      && 0 in last.db.messages && last.db.messages[0].state == Acked
  {
    hide IsRun, Acceptable, Next, Awaited, Body, Published, StoredRow, WholeSecond;
    var s := Published(cfg, x);
    PublishedFacts(cfg, x);
    SubSecondIsUnawaited(cfg, x);
    Delivers(cfg, s, 1);
    run := PublishedRun(cfg, x);
    k := |run| - 1;
    Grow(cfg, run, ADeliver(1, 0), Delivered(s, 1));
    ghost var upto := run + [Delivered(s, 1)];
    run := Drops(cfg, upto, Delivered(s, 1), 1);
    assert run[k] == upto[k];
  }

  // ---- Two deployments of one campaign ----

  function LoadingAt(s: State, pid: nat, task: CampaignDeploymentTask): State
    requires 0 in s.db.messages
  {
    Delivered(s, pid).(procs := s.procs[pid := Loading(0, task)])
  }

  function DeployingAt(s: State, pid: nat, task: CampaignDeploymentTask): State
    requires 0 in s.db.messages
  {
    Delivered(s, pid).(procs := s.procs[pid := Deploying(0, task)])
  }

  /** What a handler that runs up to its deploy call leaves behind. */
  function ReachedChain(s: State, pid: nat, task: CampaignDeploymentTask, result: DeploymentResult): State
    requires 0 in s.db.messages
  {
    var d := Delivered(s, pid);
    d.(db := d.db.(deployments := d.db.deployments + {(task.campaignId, result)}),
       procs := s.procs[pid := Deployed(0, task, result)])
  }

  predicate StubAgrees(cfg: Config, c: UUID, result: DeploymentResult) {
    cfg.stub ==> StubDeployer.Deploy(c, result.eventCreatedAt) == Some(result)
  }

  /** The campaign waits for this task. */
  predicate Waits(cfg: Config, db: Db, task: CampaignDeploymentTask) {
    && 0 in db.messages && Decode(db.messages[0].body) == Ok(task) && task.chainId == cfg.workerChainId
    && task.campaignId in db.campaigns && TaskMatchesCampaign(task, db.campaigns[task.campaignId])
    && db.campaigns[task.campaignId].status == Pending && db.campaigns[task.campaignId].contractAddress.None?
  }

  lemma HandlerReads(cfg: Config, s: State, pid: nat, task: CampaignDeploymentTask)
    requires Waits(cfg, s.db, task)
    ensures Next(cfg, Delivered(s, pid), AReadTask(pid), LoadingAt(s, pid, task))
  {
    hide Decode, TaskMatchesCampaign;
    assert s.procs[pid := Received(0)][pid := Loading(0, task)] == s.procs[pid := Loading(0, task)];
  }

  lemma HandlerLoads(cfg: Config, s: State, pid: nat, task: CampaignDeploymentTask)
    requires Waits(cfg, s.db, task)
    ensures Next(cfg, LoadingAt(s, pid, task), ALoadCampaign(pid), DeployingAt(s, pid, task))
  {
    hide Decode, TaskMatchesCampaign, Text.TrimSpace;
    assert s.procs[pid := Loading(0, task)][pid := Deploying(0, task)] == s.procs[pid := Deploying(0, task)];
  }

  lemma HandlerDeploys(cfg: Config, s: State, pid: nat, task: CampaignDeploymentTask, result: DeploymentResult)
    requires 0 in s.db.messages && StubAgrees(cfg, task.campaignId, result)
    ensures DeployContract(cfg, DeployingAt(s, pid, task), ReachedChain(s, pid, task, result), pid, result, true)
  {
    hide StubDeployer.Deploy;
    assert s.procs[pid := Deploying(0, task)][pid := Deployed(0, task, result)] == s.procs[pid := Deployed(0, task, result)];
  }

  lemma DeployIsNext(cfg: Config, s: State, s': State, pid: nat, result: DeploymentResult)
    requires DeployContract(cfg, s, s', pid, result, true)
    ensures Next(cfg, s, ADeployContract(pid, result, true), s')
  {
    hide DeployContract;
  }

  /** Deliver, read, load, deploy: the handler of an awaited message reaches the chain. */
  lemma Deploys(cfg: Config, run: seq<State>, s: State, pid: nat, task: CampaignDeploymentTask, result: DeploymentResult)
    returns (run': seq<State>)
    requires IsRun(cfg, run) && |run| > 0 && run[|run| - 1] == s && pid !in s.procs
    requires Waits(cfg, s.db, task) && s.db.messages[0].state == Queued
    requires StubAgrees(cfg, task.campaignId, result)
    ensures IsRun(cfg, run') && |run'| > |run| + 1 && run <= run'
    ensures run'[|run'| - 2] == DeployingAt(s, pid, task) && run'[|run'| - 1] == ReachedChain(s, pid, task, result)
    ensures DeployContract(cfg, run'[|run'| - 2], run'[|run'| - 1], pid, result, true)
  {
    hide IsRun, Next, Decode, StubAgrees, DeployContract, TaskMatchesCampaign, Delivered, LoadingAt, DeployingAt, ReachedChain;
    Delivers(cfg, s, pid);
    HandlerReads(cfg, s, pid, task);
    HandlerLoads(cfg, s, pid, task);
    HandlerDeploys(cfg, s, pid, task, result);
    DeployIsNext(cfg, DeployingAt(s, pid, task), ReachedChain(s, pid, task, result), pid, result);
    Grow(cfg, run, ADeliver(pid, 0), Delivered(s, pid));
    run' := run + [Delivered(s, pid)];
    Grow(cfg, run', AReadTask(pid), LoadingAt(s, pid, task));
    run' := run' + [LoadingAt(s, pid, task)];
    Grow(cfg, run', ALoadCampaign(pid), DeployingAt(s, pid, task));
    run' := run' + [DeployingAt(s, pid, task)];
    Grow(cfg, run', ADeployContract(pid, result, true), ReachedChain(s, pid, task, result));
    run' := run' + [ReachedChain(s, pid, task, result)];
  }

  /** The worker dies after the deploy call and the broker takes the message back. */
  function Returned(s: State, pid: nat): State
    requires 0 in s.db.messages
  {
    To(s, pid, Crashed).(db := s.db.(messages := s.db.messages[0 := s.db.messages[0].(state := Queued)]))
  }

  lemma Returns(cfg: Config, run: seq<State>, s: State, pid: nat) returns (run': seq<State>)
    requires IsRun(cfg, run) && |run| > 0 && run[|run| - 1] == s && pid in s.procs
    requires 0 in s.db.messages && s.db.messages[0].state.InFlight?
    ensures IsRun(cfg, run') && |run'| > 0 && run <= run' && run'[|run'| - 1] == Returned(s, pid)
  {
    hide IsRun, Returned, Next;
    Crashes(cfg, s, pid);
    Grow(cfg, run, ACrash(pid), To(s, pid, Crashed));
    run' := run + [To(s, pid, Crashed)];
    Grow(cfg, run', ARedeliver(0), Returned(s, pid));
    run' := run' + [Returned(s, pid)];
  }

  lemma Crashes(cfg: Config, s: State, pid: nat)
    requires pid in s.procs && 0 in s.db.messages && s.db.messages[0].state.InFlight?
    ensures Next(cfg, s, ACrash(pid), To(s, pid, Crashed))
    ensures Next(cfg, To(s, pid, Crashed), ARedeliver(0), Returned(s, pid))
  {
  }

  lemma PublishedWaits(cfg: Config, x: Scene)
    requires Acceptable(x) && cfg.apiChainId == cfg.workerChainId > 0 && !Text.Blank(x.input.walletAddress)
    requires WholeSecond(TruncateToMicrosecond(x.input.endAt)) && 0 <= YearOf(TruncateToMicrosecond(x.input.endAt)) <= 9999
    ensures Waits(cfg, Published(cfg, x).db, TaskFor(StoredRow(x), Text.TrimSpace(x.input.walletAddress), cfg.apiChainId))
  {
    hide Decode, Encode, Canonical, Text.TrimSpace, Text.Lower, YearOf;
    DecodeEncode(TaskFor(StoredRow(x), Text.TrimSpace(x.input.walletAddress), cfg.apiChainId));
  }

  /** After the crash everything but the record of deployments is as the second worker needs it. */
  lemma WaitsAgain(cfg: Config, s: State, task: CampaignDeploymentTask, result: DeploymentResult)
    requires Waits(cfg, s.db, task) && 2 !in s.procs
    ensures 0 in s.db.messages
    ensures
      var reached := ReachedChain(s, 1, task, result);
      && 1 in reached.procs && 0 in reached.db.messages && reached.db.messages[0].state.InFlight?
      && Waits(cfg, Returned(reached, 1).db, task) && 0 in Returned(reached, 1).db.messages
      && Returned(reached, 1).db.messages[0].state == Queued && 2 !in Returned(reached, 1).procs
  {
    hide Decode, TaskMatchesCampaign;
  }

  /** A deploy call for campaign c takes effect on the chain. */
  predicate DeploysCampaign(cfg: Config, s: State, s': State, pid: nat, result: DeploymentResult, c: UUID) {
    DeployContract(cfg, s, s', pid, result, true) && s.procs[pid].task.campaignId == c
  }

  lemma DeployedFor(cfg: Config, s: State, s': State, pid: nat, task: CampaignDeploymentTask, result: DeploymentResult)
    requires pid in s.procs && s.procs[pid] == Deploying(0, task) && DeployContract(cfg, s, s', pid, result, true)
    ensures DeploysCampaign(cfg, s, s', pid, result, task.campaignId)
  {
    hide DeployContract;
  }

  /** The first worker deploys and dies. */
  lemma FirstDeploys(cfg: Config, run: seq<State>, s: State, task: CampaignDeploymentTask, result: DeploymentResult)
    returns (back: seq<State>, i: nat)
    requires IsRun(cfg, run) && |run| > 0 && run[|run| - 1] == s && 1 !in s.procs && 2 !in s.procs
    requires Waits(cfg, s.db, task) && s.db.messages[0].state == Queued && StubAgrees(cfg, task.campaignId, result)
    ensures IsRun(cfg, back) && i + 1 < |back| && back[|back| - 1] == Returned(ReachedChain(s, 1, task, result), 1)
    ensures DeploysCampaign(cfg, back[i], back[i + 1], 1, result, task.campaignId)
  {
    hide IsRun, StubAgrees, ReachedChain, Returned, Waits, DeployContract, DeployingAt, DeploysCampaign;
    WaitsAgain(cfg, s, task, result);
    DeployingTask(s, 1, task);
    var once := Deploys(cfg, run, s, 1, task, result);
    i := |once| - 2;
    DeployedFor(cfg, once[i], once[i + 1], 1, task, result);
    back := Returns(cfg, once, ReachedChain(s, 1, task, result), 1);
    Prefix(once, back, i);
    Prefix(once, back, i + 1);
  }

  /** After it, the second worker deploys as well. */
  lemma BothDeploy(
    cfg: Config, run: seq<State>, s: State, task: CampaignDeploymentTask, first: DeploymentResult, second: DeploymentResult)
    returns (run': seq<State>, i: nat, j: nat)
    requires IsRun(cfg, run) && |run| > 0 && run[|run| - 1] == s && 1 !in s.procs && 2 !in s.procs
    requires Waits(cfg, s.db, task) && s.db.messages[0].state == Queued
    requires StubAgrees(cfg, task.campaignId, first) && StubAgrees(cfg, task.campaignId, second)
    ensures IsRun(cfg, run') && i < j && j + 1 < |run'|
    ensures DeploysCampaign(cfg, run'[i], run'[i + 1], 1, first, task.campaignId)
    ensures DeploysCampaign(cfg, run'[j], run'[j + 1], 2, second, task.campaignId)
  {
    hide IsRun, StubAgrees, ReachedChain, Returned, Waits, DeployContract, DeployingAt, DeploysCampaign;
    WaitsAgain(cfg, s, task, first);
    var again := Returned(ReachedChain(s, 1, task, first), 1);
    DeployingTask(again, 2, task);
    var back;
    back, i := FirstDeploys(cfg, run, s, task, first);
    run' := Deploys(cfg, back, again, 2, task, second);
    j := |run'| - 2;
    DeployedFor(cfg, run'[j], run'[j + 1], 2, task, second);
    Prefix(back, run', i);
    Prefix(back, run', i + 1);
  }

  /** On-chain deployment at most once is not promised: for every accepted call with a whole-second
      end time there is a run in which two workers deploy its campaign, the first one dying between
      its deploy call and its commit. */
  lemma DeployedTwice(cfg: Config, x: Scene, first: DeploymentResult, second: DeploymentResult)
    returns (run: seq<State>, i: nat, j: nat)
    requires Acceptable(x) && cfg.apiChainId == cfg.workerChainId > 0 && !Text.Blank(x.input.walletAddress)
    requires WholeSecond(TruncateToMicrosecond(x.input.endAt)) && 0 <= YearOf(TruncateToMicrosecond(x.input.endAt)) <= 9999
    requires StubAgrees(cfg, x.id, first) && StubAgrees(cfg, x.id, second)
    ensures IsRun(cfg, run) && i < j && j + 1 < |run|
    ensures DeploysCampaign(cfg, run[i], run[i + 1], 1, first, x.id)
    ensures DeploysCampaign(cfg, run[j], run[j + 1], 2, second, x.id)
  {
    hide IsRun, Acceptable, StubAgrees, Published, StoredRow, Waits, YearOf, WholeSecond, Text.TrimSpace, Text.Blank,
         DeploysCampaign, TruncateToMicrosecond, Body;
    var task := TaskFor(StoredRow(x), Text.TrimSpace(x.input.walletAddress), cfg.apiChainId);
    PublishedWaits(cfg, x);
    PublishedFacts(cfg, x);
    run := PublishedRun(cfg, x);
    run, i, j := BothDeploy(cfg, run, Published(cfg, x), task, first, second);
  }

  lemma DeployingTask(s: State, pid: nat, task: CampaignDeploymentTask)
    requires 0 in s.db.messages
    ensures pid in DeployingAt(s, pid, task).procs && DeployingAt(s, pid, task).procs[pid] == Deploying(0, task)
  {
  }

  lemma Prefix(a: seq<State>, b: seq<State>, i: nat)
    requires a <= b && i < |a|
    ensures i < |b| && b[i] == a[i]
  {
  }

  // ---- A second spelling of the wallet ----

  /** The run that commits the campaign and then registers a second fundraiser. */
  lemma VariantRun(cfg: Config, x: Scene, g: UUID, variant: string) returns (run: seq<State>)
    requires Acceptable(x) && g != x.owner && variant != x.wallet
    ensures IsRun(cfg, run) && |run| > 2 && CommitCreate(run[|run| - 3], run[|run| - 2], 0, true)
    ensures run[|run| - 3].procs[0].input == x.input && run[|run| - 3].procs[0].row == StoredRow(x)
    ensures
      var db := run[|run| - 1].db;
      && db.users == map[x.owner := User(Fundraiser, x.wallet, false)][g := User(Fundraiser, variant, false)]
      && db.campaigns == map[x.id := StoredRow(x)]
  {
    hide IsRun, Acceptable, StoredRow, CommitCreate, Promoted, Next;
    run := CreatedRun(cfg, x);
    var s := run[|run| - 1];
    var s' := s.(db := s.db.(users := s.db.users[g := User(Fundraiser, variant, false)]));
    VariantRegisters(cfg, x, s, g, variant);
    Grow(cfg, run, ARegisterUser(g, User(Fundraiser, variant, false)), s');
    run := run + [s'];
  }

  /** A fundraiser who registers the same wallet in another case, which the wallet index allows, makes
      the replay of a committed call find another fundraiser and answer otherwise, although the owner
      is live. */
  lemma CaseVariantBreaksReplay(cfg: Config, x: Scene, g: UUID, variant: string, id: UUID, now: Instant, createdAt: Instant)
    returns (run: seq<State>, f: Option<UUID>, found: Option<UUID>)
    requires Acceptable(x) && cfg.apiChainId > 0
    requires g != x.owner && variant != x.wallet && Text.Lower(variant) == Text.Lower(x.wallet)
    ensures IsRun(cfg, run) && |run| > 2 && CommitCreate(run[|run| - 3], run[|run| - 2], 0, true)
    ensures run[|run| - 3].procs[0].input == x.input && run[|run| - 3].procs[0].row == StoredRow(x)
    ensures WalletIndexHolds(run[|run| - 1].db.users)
    ensures x.owner in run[|run| - 1].db.users && !run[|run| - 1].db.users[x.owner].deleted
    ensures QueriesAnswer(run[|run| - 1].db, x.input, f, found) && x.id in run[|run| - 1].db.campaigns
    ensures CreateCall(cfg.apiChainId, TablesOf(run[|run| - 1].db), run[|run| - 1].db.objects, x.input, id, now, createdAt, f, found)
            .result != Ok(run[|run| - 1].db.campaigns[x.id])
  {
    hide IsRun, Acceptable, StoredRow, CreateCall, QueriesAnswer, Text.Lower, CommitCreate, CommitReplay, WalletIndexHolds, OnlyOwner;
    run := VariantRun(cfg, x, g, variant);
    WalletIndexOverRun(cfg, run, |run| - 1);
    SecondSpelling(x, g, variant, run[|run| - 1].db.users);
    StoredOwner(x);
    f, found := ReplayMayFail(cfg, run, |run| - 3, |run| - 1, 0, id, now, createdAt);
  }

  lemma VariantRegisters(cfg: Config, x: Scene, s: State, g: UUID, variant: string)
    requires g != x.owner && variant != x.wallet && s.db.users == map[x.owner := User(Fundraiser, x.wallet, false)]
    ensures Next(cfg, s, ARegisterUser(g, User(Fundraiser, variant, false)),
                 s.(db := s.db.(users := s.db.users[g := User(Fundraiser, variant, false)])))
  {
  }

  lemma StoredOwner(x: Scene)
    requires Acceptable(x)
    ensures StoredRow(x).fundraiserId == x.owner && StoredRow(x).id == x.id
  {
    hide Canonical, Text.TrimSpace, Text.Lower;
  }

  lemma SecondSpelling(x: Scene, g: UUID, variant: string, users: map<UUID, User>)
    requires Acceptable(x) && g != x.owner && Text.Lower(variant) == Text.Lower(x.wallet)
    requires g in users && users[g] == User(Fundraiser, variant, false)
    ensures !OnlyOwner(users, x.input.walletAddress, x.owner)
  {
    hide Canonical, Text.TrimSpace, Text.Lower;
    assert MatchesFundraiser(users[g], x.input.walletAddress);
  }
}
