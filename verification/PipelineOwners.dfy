/** Whose campaign a Create call works on: from the moment it has locked a fundraiser until it ends,
    that fundraiser spells the wallet of the call. */
module PipelineOwners {
  import opened Options
  import opened Uuid
  import opened Domain
  import opened CampaignRules
  import opened DeploymentCodec
  import opened Pipeline
  import opened PipelineInvariant
  import opened PipelineCommits
  import opened PipelineRuns
  import ObjectKeys
  import StubDeployer
  import Text

  /** A fundraiser, deleted or not, that the wallet spells. */
  predicate Spells(users: map<UUID, User>, walletAddress: string, f: UUID) {
    && f in users && users[f].role == Fundraiser
    && Text.Lower(users[f].walletAddress) == Text.Lower(Text.TrimSpace(walletAddress))
  }

  /** The wallet a call came with and the fundraiser it has found. */
  function Owner(p: Proc): Option<(string, UUID)> {
    match p
    case CreateLocked(input, request, _) => Some((input.walletAddress, request.fundraiserId))
    case Inserting(input, request, _) => Some((input.walletAddress, request.fundraiserId))
    case InsertSkipped(input, request) => Some((input.walletAddress, request.fundraiserId))
    case Inserted(input, row, _) => Some((input.walletAddress, row.fundraiserId))
    case Replaying(input, row) => Some((input.walletAddress, row.fundraiserId))
    case Discarding(input, row) => Some((input.walletAddress, row.fundraiserId))
    case Publishing(input, row) => Some((input.walletAddress, row.fundraiserId))
    case Created(input, row) => Some((input.walletAddress, row.fundraiserId))
    case Conflicted(input, existing) => Some((input.walletAddress, existing.fundraiserId))
    case _ => None
  }

  predicate OwnerInv(users: map<UUID, User>, p: Proc) {
    Owner(p).Some? ==> Spells(users, Owner(p).value.0, Owner(p).value.1)
  }

  predicate OwnersInv(s: State) {
    forall q :: q in s.procs ==> OwnerInv(s.db.users, s.procs[q])
  }

  /** The owner of q's call is the one it had, or one it has just locked. */
  predicate OwnerKept(s: State, s': State, q: nat)
    requires q in s'.procs
  {
    || Owner(s'.procs[q]).None?
    || (q in s.procs && Owner(s'.procs[q]) == Owner(s.procs[q]))
    || Spells(s.db.users, Owner(s'.procs[q]).value.0, Owner(s'.procs[q]).value.1)
  }

  lemma ApiOwners(cfg: Config, s: State, a: Action, s': State, q: nat)
    requires ApiOnly(a) && Next(cfg, s, a, s') && q in s'.procs
    ensures OwnerKept(s, s', q)
  {
    hide MayEnter, ObjectKeys.Canonical, SameCreationPayload, KeyTaken, OwnsUndeletable, Text.TrimSpace, Text.Lower;
  }

  /** The steps of a handler, and a crash, leave the moving process without an owner. */
  lemma WorkerOwners(cfg: Config, s: State, a: Action, s': State, q: nat)
    requires WorkerOnly(a) && Next(cfg, s, a, s') && q in s'.procs
    ensures OwnerKept(s, s', q)
  {
    hide MayEnter, Decode, CompletionArgumentsValid, EventKeyFree, AddressFree, JudgeLoaded, JudgeLocked, Spells, CreationEvent,
         Text.TrimSpace;
  }

  lemma SharedOwners(cfg: Config, s: State, a: Action, s': State, q: nat)
    requires !ApiOnly(a) && !WorkerOnly(a) && Next(cfg, s, a, s') && q in s'.procs
    ensures OwnerKept(s, s', q)
  {
    hide ObjectKeys.Canonical, Encode, NeedsDeployment, Text.TrimSpace, Spells, EventKeyFree, EventsCollide, TargetStored,
         Activated, CreationEvent, SameCreationFields, LiveChainDataCheck, WalletFree;
  }

  lemma OwnersKept(cfg: Config, s: State, s': State)
    requires OwnersInv(s) && Step(cfg, s, s') && Evolves(s.db, s'.db)
    ensures OwnersInv(s')
  {
    hide Next, Owner, CampaignsEvolve, Text.TrimSpace, Text.Lower, Text.HasPrefix;
    var a :| Next(cfg, s, a, s');
    forall q | q in s'.procs
      ensures OwnerInv(s'.db.users, s'.procs[q])
    {
      if ApiOnly(a) {
        ApiOwners(cfg, s, a, s', q);
      } else if WorkerOnly(a) {
        WorkerOwners(cfg, s, a, s', q);
      } else {
        SharedOwners(cfg, s, a, s', q);
      }
    }
  }

  /** In every state of every run, the fundraiser of a call is one its wallet spells. */
  lemma {:induction false} OwnersOverRun(cfg: Config, run: seq<State>, i: nat)
    requires IsRun(cfg, run) && i < |run|
    ensures OwnersInv(run[i])
  {
    hide Inv, Step, Evolves, OwnerInv;
    if i > 0 {
      OwnersOverRun(cfg, run, i - 1);
      InvOverRun(cfg, run, i - 1);
      assert Step(cfg, run[i - 1], run[i - 1 + 1]);
      StepKeeps(cfg, run[i - 1], run[i]);
      OwnersKept(cfg, run[i - 1], run[i]);
    }
  }

  // ---- The wallet index ----

  lemma ApiUsers(cfg: Config, s: State, a: Action, s': State)
    requires (ApiOnly(a) || WorkerOnly(a)) && Next(cfg, s, a, s')
    ensures s'.db.users == s.db.users
  {
    hide Next;
    if ApiOnly(a) {
      ApiStepSameDb(cfg, s, a, s');
    } else {
      WorkerStepSameDb(cfg, s, a, s');
    }
  }

  lemma SharedUsers(cfg: Config, s: State, a: Action, s': State)
    requires !ApiOnly(a) && !WorkerOnly(a) && Next(cfg, s, a, s') && WalletIndexHolds(s.db.users)
    ensures WalletIndexHolds(s'.db.users)
  {
    hide ObjectKeys.Canonical, Encode, NeedsDeployment, Text.TrimSpace, EventKeyFree, EventsCollide, TargetStored,
         Activated, CreationEvent, SameCreationFields, LiveChainDataCheck, RequestAt, StubDeployer.Deploy;
  }

  /** The wallet index holds in every state of every run. */
  lemma {:induction false} WalletIndexOverRun(cfg: Config, run: seq<State>, i: nat)
    requires IsRun(cfg, run) && i < |run|
    ensures WalletIndexHolds(run[i].db.users)
  {
    hide Next, WalletIndexHolds;
    if i == 0 {
      NoUsers();
    } else {
      WalletIndexOverRun(cfg, run, i - 1);
      assert Step(cfg, run[i - 1], run[i - 1 + 1]);
      var a :| Next(cfg, run[i - 1], a, run[i]);
      if ApiOnly(a) || WorkerOnly(a) {
        ApiUsers(cfg, run[i - 1], a, run[i]);
      } else {
        SharedUsers(cfg, run[i - 1], a, run[i]);
      }
    }
  }

  lemma NoUsers()
    ensures WalletIndexHolds(map[])
  {
  }
}
