/** One delivery handled from start to end: decode, filter, deploy, record, settle. */
module DeploymentWorker {
  import opened Options
  import opened Uuid
  import opened Domain
  import opened CampaignRules
  import opened CampaignRepository
  import opened DeploymentCodec
  import Text

  datatype Settlement = Ack | NackRequeue

  /** The task is for this chain and for a stored campaign it agrees with. */
  predicate Wanted(chainId: int, campaigns: map<UUID, Campaign>, task: CampaignDeploymentTask) {
    && task.chainId == chainId
    && task.campaignId in campaigns
    && TaskMatchesCampaign(task, campaigns[task.campaignId])
  }

  /** The only change a handled task can make: its own pending campaign becomes active, with the
      address and the event of a deployment. */
  predicate ActivatesAtMost(before: Tables, after: Tables, task: CampaignDeploymentTask, eventId: UUID, result: DeploymentResult) {
    || after == before
    || (&& task.campaignId in before.campaigns && before.campaigns[task.campaignId].status == Pending
        && eventId !in before.events
        && after == before.(
             campaigns := before.campaigns[task.campaignId := Activated(before.campaigns[task.campaignId], eventId, result)],
             events := before.events[eventId := CreationEvent(result)]))
  }

  /** Handle as a function of the tables; an absent deployment or event id is an error of the call
      that was to produce it. */
  function HandleEffect(
    chainId: int, t: Tables, task: CampaignDeploymentTask, deployment: Option<DeploymentResult>, eventId: Option<UUID>)
    : (Tables, bool)
  {
    if !Wanted(chainId, t.campaigns, task) || !NeedsDeployment(t.campaigns[task.campaignId]) then (t, true)
    else if deployment.None? || eventId.None? then (t, false)
    else
      var (after, outcome) := CompleteEffect(t, task.campaignId, eventId.value, deployment.value);
      (after, outcome in {Recorded, AlreadyRecorded, NotPendingDeployment})
  }

  /** The task names this chain and a stored campaign with the same fundraiser, goal and end time that
      is pending and has no address. */
  predicate Due(chainId: int, campaigns: map<UUID, Campaign>, task: CampaignDeploymentTask) {
    && task.chainId == chainId && task.campaignId in campaigns
    && var row := campaigns[task.campaignId];
    && row.fundraiserId == task.fundraiserId && row.goalAmount == task.goalAmount && row.endAt == task.endAt
    && row.status == Pending && (row.contractAddress.None? || Text.TrimSpace(row.contractAddress.value) == "")
  }

  /** What Handle promises, apart from how it gets there: a task that is not due is dropped with nothing
      changed; a due one is an error without a deployment, and otherwise ends as CompleteDeployment. */
  ghost predicate HandlePromise(
    chainId: int, t: Tables, after: Tables, task: CampaignDeploymentTask, deployment: Option<DeploymentResult>,
    eventId: Option<UUID>, ok: bool)
  {
    && (!Due(chainId, t.campaigns, task) ==> ok && after == t)
    && (Due(chainId, t.campaigns, task) && (deployment.None? || eventId.None?) ==> !ok && after == t)
    && (Due(chainId, t.campaigns, task) && deployment.Some? && eventId.Some? ==>
          exists outcome ::
            && CompletionPromise(t, after, task.campaignId, eventId.value, deployment.value, outcome)
            && (ok <==> outcome == Recorded))
  }

  lemma HandleByFields(
    chainId: int, t: Tables, task: CampaignDeploymentTask, deployment: Option<DeploymentResult>, eventId: Option<UUID>)
    ensures
      var (after, ok) := HandleEffect(chainId, t, task, deployment, eventId);
      HandlePromise(chainId, t, after, task, deployment, eventId, ok)
  {
    hide Text.TrimSpace, EventKeyFree, AddressFree, CompletionArgumentsValid, CompleteEffect, CompletionPromise;
    if Due(chainId, t.campaigns, task) && deployment.Some? && eventId.Some? {
      var (after, outcome) := CompleteEffect(t, task.campaignId, eventId.value, deployment.value);
      CompletionByFields(t, task.campaignId, eventId.value, deployment.value);
      PendingOutcomes(t, after, task.campaignId, eventId.value, deployment.value, outcome);
      assert CompletionPromise(t, after, task.campaignId, eventId.value, deployment.value, outcome);
    }
  }

  lemma PendingOutcomes(t: Tables, after: Tables, c: UUID, eventId: UUID, result: DeploymentResult, outcome: CompletionOutcome)
    requires c in t.campaigns && t.campaigns[c].status == Pending
    requires CompletionPromise(t, after, c, eventId, result, outcome)
    ensures outcome in {InvalidArguments, ConstraintViolated, Recorded}
  {
    hide Text.TrimSpace;
  }

  /** A wanted task is carried out: with usable, unused chain data its campaign becomes active with
      exactly that data and nothing else changes. */
  lemma WantedTaskIsActivated(
    chainId: int, t: Tables, task: CampaignDeploymentTask, result: DeploymentResult, eventId: UUID)
    requires Wanted(chainId, t.campaigns, task) && NeedsDeployment(t.campaigns[task.campaignId])
    requires CompletionArgumentsValid(eventId, result) && EventKeyFree(t.events, eventId, CreationEvent(result))
    requires AddressFree(t.campaigns, task.campaignId, Text.TrimSpace(result.contractAddress))
    ensures
      var (after, ok) := HandleEffect(chainId, t, task, Some(result), Some(eventId));
      && ok && !NeedsDeployment(after.campaigns[task.campaignId])
      && after == t.(
           campaigns := t.campaigns[task.campaignId := Activated(t.campaigns[task.campaignId], eventId, result)],
           events := t.events[eventId := CreationEvent(result)])
  {
    hide EventKeyFree, AddressFree, CompletionArgumentsValid, Text.TrimSpace, HasAddress;
  }

  class Worker {
    const chainId: int
    const repository: Repository

    constructor (chainId: int, repository: Repository)
      ensures this.chainId == chainId && this.repository == repository
    {
      this.chainId, this.repository := chainId, repository;
    }

    /** Handle. `deployment` is what the deploy call would return and `eventId` what the id generator
        would, None being an error. A nil result means that nothing is left to do for the task. */
    method Handle(task: CampaignDeploymentTask, deployment: Option<DeploymentResult>, eventId: Option<UUID>)
      returns (ok: bool)
      modifies repository
      ensures (repository.Contents(), ok) == HandleEffect(chainId, old(repository.Contents()), task, deployment, eventId)
      ensures HandlePromise(chainId, old(repository.Contents()), repository.Contents(), task, deployment, eventId, ok)
      ensures ok && Wanted(chainId, repository.campaigns, task) ==>
                !NeedsDeployment(repository.campaigns[task.campaignId])
      ensures !ok ==> repository.Contents() == old(repository.Contents())
      ensures deployment.None? || eventId.None? ==> repository.Contents() == old(repository.Contents())
      ensures deployment.Some? && eventId.Some? ==>
                ActivatesAtMost(old(repository.Contents()), repository.Contents(), task, eventId.value, deployment.value)
    {
      hide EventKeyFree, AddressFree, CompletionArgumentsValid, Text.TrimSpace, HandlePromise, CompletionPromise;
      HandleByFields(chainId, repository.Contents(), task, deployment, eventId);
      if task.chainId != chainId {
        return true;
      }
      if task.campaignId !in repository.campaigns {
        return true;
      }
      var campaign := repository.campaigns[task.campaignId];
      if HasAddress(campaign) {
        return true;
      }
      if campaign.status != Pending {
        return true;
      }
      if !TaskMatchesCampaign(task, campaign) {
        return true;
      }
      if deployment.None? || eventId.None? {
        return false;
      }
      var outcome := repository.CompleteDeployment(task.campaignId, eventId.value, deployment.value);
      NewEventId(old(repository.Contents()), task.campaignId, eventId.value, deployment.value);
      return outcome in {Recorded, AlreadyRecorded, NotPendingDeployment};
    }

    /** Deployer.handleDelivery under Consumer.handleDelivery: an unreadable body is acknowledged, an
        error is nacked with requeue. A message is acknowledged only when no campaign needs it. */
    method HandleDelivery(body: Message, deployment: Option<DeploymentResult>, eventId: Option<UUID>)
      returns (settlement: Settlement)
      modifies repository
      ensures Decode(body).Ok? ==>
                (repository.Contents(), settlement == Ack)
                == HandleEffect(chainId, old(repository.Contents()), Decode(body).value, deployment, eventId)
      ensures Decode(body).Ok? ==>
                HandlePromise(chainId, old(repository.Contents()), repository.Contents(), Decode(body).value, deployment, eventId,
                              settlement == Ack)
      ensures settlement == Ack && Decode(body).Ok? && Wanted(chainId, repository.campaigns, Decode(body).value) ==>
                !NeedsDeployment(repository.campaigns[Decode(body).value.campaignId])
      ensures settlement == NackRequeue ==> repository.Contents() == old(repository.Contents())
      ensures Decode(body).Err? ==> settlement == Ack && repository.Contents() == old(repository.Contents())
    {
      hide Decode, ActivatesAtMost, NeedsDeployment, Wanted, HandleEffect, HandlePromise;
      var read := Decode(body);
      if read.Err? {
        return Ack;
      }
      var ok := Handle(read.value, deployment, eventId);
      return if ok then Ack else NackRequeue;
    }
  }

  lemma NewEventId(t: Tables, c: UUID, eventId: UUID, result: DeploymentResult)
    ensures CompleteEffect(t, c, eventId, result).1 == Recorded ==> eventId !in t.events
  {
    hide AddressFree, CompletionArgumentsValid, Text.TrimSpace, CreationEvent;
  }
}
