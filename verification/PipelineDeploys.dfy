/** When a worker deploys: exactly when the message it loads for is awaited. */
module PipelineDeploys {
  import opened Domain
  import opened CampaignRules
  import opened DeploymentCodec
  import opened Pipeline
  import opened PipelineInvariant
  import opened PipelineProof
  import opened PipelineCommits
  import opened PipelineRuns
  import opened PipelineTheorems
  import ObjectKeys
  import StubDeployer
  import Text

  /** A handler goes on to deploy exactly when its message is awaited at the moment of its load. */
  lemma DeploysExactlyWhenAwaited(cfg: Config, run: seq<State>, i: nat, pid: nat)
    requires IsRun(cfg, run) && i + 1 < |run| && LoadCampaign(run[i], run[i + 1], pid)
    ensures
      var mid := run[i].procs[pid].mid;
      && mid in run[i].db.messages
      && (run[i + 1].procs[pid].Deploying? <==> Awaited(cfg, run[i].db, run[i].db.messages[mid].body))
  {
    hide Inv, IsRun, Decode, Text.TrimSpace, Text.HasPrefix;
    InvOverRun(cfg, run, i);
    Local(cfg, run[i], pid);
    StoredCampaign(cfg, run[i], run[i].procs[pid].task.campaignId);
  }

  /** A process in Deploying was there before the step or has just loaded. */
  predicate DeployingFrom(s: State, s': State, pid: nat)
    requires pid in s'.procs
  {
    s'.procs[pid].Deploying? ==> (pid in s.procs && s.procs[pid] == s'.procs[pid]) || LoadCampaign(s, s', pid)
  }

  lemma ApiDeploying(cfg: Config, s: State, a: Action, s': State, pid: nat)
    requires ApiOnly(a) && Next(cfg, s, a, s') && pid in s'.procs
    ensures DeployingFrom(s, s', pid)
  {
    hide MayEnter, ObjectKeys.Canonical, MatchesFundraiser, SameCreationPayload, KeyTaken, OwnsUndeletable, LoadCampaign;
  }

  lemma WorkerDeploying(cfg: Config, s: State, a: Action, s': State, pid: nat)
    requires WorkerOnly(a) && Next(cfg, s, a, s') && pid in s'.procs
    ensures DeployingFrom(s, s', pid)
  {
    hide MayEnter, Decode, CompletionArgumentsValid, EventKeyFree, AddressFree, JudgeLoaded, JudgeLocked;
  }

  lemma SharedDeploying(cfg: Config, s: State, a: Action, s': State, pid: nat)
    requires !ApiOnly(a) && !WorkerOnly(a) && Next(cfg, s, a, s') && pid in s'.procs
    ensures DeployingFrom(s, s', pid)
  {
    hide ObjectKeys.Canonical, Encode, NeedsDeployment, Text.TrimSpace, EventKeyFree, EventsCollide, TargetStored, Activated,
         CreationEvent, SameCreationFields, LiveChainDataCheck, WalletFree, LoadCampaign, StubDeployer.Deploy;
  }

  lemma StepDeploying(cfg: Config, s: State, s': State, pid: nat)
    requires Step(cfg, s, s') && pid in s'.procs
    ensures DeployingFrom(s, s', pid)
  {
    hide Next, DeployingFrom;
    var a :| Next(cfg, s, a, s');
    if ApiOnly(a) {
      ApiDeploying(cfg, s, a, s', pid);
    } else if WorkerOnly(a) {
      WorkerDeploying(cfg, s, a, s', pid);
    } else {
      SharedDeploying(cfg, s, a, s', pid);
    }
  }

  lemma {:induction false} LoadedBefore(cfg: Config, run: seq<State>, i: nat, pid: nat) returns (k: nat)
    requires IsRun(cfg, run) && i < |run| && pid in run[i].procs && run[i].procs[pid].Deploying?
    ensures k < i && LoadCampaign(run[k], run[k + 1], pid) && run[k + 1].procs[pid] == run[i].procs[pid]
  {
    hide Step, LoadCampaign;
    assert Step(cfg, run[i - 1], run[i - 1 + 1]);
    StepDeploying(cfg, run[i - 1], run[i], pid);
    if LoadCampaign(run[i - 1], run[i], pid) {
      k := i - 1;
    } else {
      k := LoadedBefore(cfg, run, i - 1, pid);
    }
  }

  /** Every deploy call for a campaign follows a load made by the same handler while that campaign
      was pending and the message awaited. */
  lemma EveryDeployWasAwaited(cfg: Config, run: seq<State>, i: nat, pid: nat, result: DeploymentResult, seen: bool)
    returns (k: nat)
    requires IsRun(cfg, run) && i + 1 < |run| && DeployContract(cfg, run[i], run[i + 1], pid, result, seen)
    ensures k < i && LoadCampaign(run[k], run[k + 1], pid) && run[k + 1].procs[pid] == run[i].procs[pid]
    ensures
      var Deploying(mid, task) := run[i].procs[pid];
      && mid in run[k].db.messages && Awaited(cfg, run[k].db, run[k].db.messages[mid].body)
      && task.campaignId in run[k].db.campaigns && run[k].db.campaigns[task.campaignId].status == Pending
  {
    hide IsRun, Awaited, Decode, StubDeployer.Deploy;
    k := LoadedBefore(cfg, run, i, pid);
    DeploysExactlyWhenAwaited(cfg, run, k, pid);
  }

  /** Once a campaign has left pending, no load starts another deployment of it. */
  lemma NoDeployOnceLeft(cfg: Config, run: seq<State>, i: nat, k: nat, pid: nat)
    requires IsRun(cfg, run) && i <= k && k + 1 < |run| && LoadCampaign(run[k], run[k + 1], pid)
    requires
      var c := run[k].procs[pid].task.campaignId;
      c in run[i].db.campaigns && run[i].db.campaigns[c].status != Pending
    ensures !run[k + 1].procs[pid].Deploying?
  {
    hide IsRun, Evolves, CampaignEvolves, Text.TrimSpace;
    var c := run[k].procs[pid].task.campaignId;
    EvolvesOverRun(cfg, run, i, k);
    RowEvolves(run[i].db, run[k].db, c);
    StaysLeft(run[i].db.campaigns[c], run[k].db.campaigns[c]);
  }

  lemma StaysLeft(a: Campaign, b: Campaign)
    requires CampaignEvolves(a, b) && a.status != Pending
    ensures b.status != Pending
  {
  }
}
