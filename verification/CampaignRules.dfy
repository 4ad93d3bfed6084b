/** The decisions of the campaign repository and of the services around it, as functions of what
    they read. The transactions that use them are in Pipeline and CampaignRepository. */
module CampaignRules {
  import opened Options
  import opened Uuid
  import opened Timestamp
  import opened Domain
  import opened ObjectKeys
  import Text

  const CAMPAIGN_DEPLOYMENT_LEAD_TIME: int := 5 * 60 * NANOS_PER_SECOND

  datatype CreateCampaignInput = CreateCampaignInput(
    walletAddress: string,
    idempotencyKey: string,
    title: string,
    shortDescription: string,
    story: string,
    goalAmount: int,
    endAt: Instant,
    imageObjectKey: string,
    country: string,
    zipCode: string)

  /** The row CampaignService.Create asks the repository to store; the repository fills in the
      fundraiser and the columns with defaults. */
  function RequestedCampaign(id: UUID, input: CreateCampaignInput, imageObjectKey: string): Campaign {
    Campaign(
      id, Uuid.NIL, None,
      Text.TrimSpace(input.title),
      Text.TrimSpace(input.shortDescription),
      Text.TrimSpace(input.story),
      input.goalAmount, 0, 0, None, 0,
      TruncateToMicrosecond(input.endAt),
      imageObjectKey,
      Text.TrimSpace(input.country),
      Text.TrimSpace(input.zipCode),
      Pending,
      Text.TrimSpace(input.idempotencyKey))
  }

  /** The row holds what the input asks for, each field under its own name. */
  predicate FromInput(input: CreateCampaignInput, row: Campaign) {
    && row.title == Text.TrimSpace(input.title)
    && row.shortDescription == Text.TrimSpace(input.shortDescription)
    && row.story == Text.TrimSpace(input.story)
    && row.goalAmount == input.goalAmount
    && row.endAt == TruncateToMicrosecond(input.endAt)
    && Canonical(input.imageObjectKey, Campaigns) == Some(row.imageObjectKey)
    && row.country == Text.TrimSpace(input.country)
    && row.zipCode == Text.TrimSpace(input.zipCode)
    && row.idempotencyKey == Text.TrimSpace(input.idempotencyKey)
  }

  /** Under one idempotency key, a row has the request's payload exactly when it is what the input asks for. */
  lemma FoundRow(input: CreateCampaignInput, request: Campaign, row: Campaign)
    requires FromInput(input, request)
    requires row.idempotencyKey == request.idempotencyKey
    ensures SameCreationPayload(row, request) <==> FromInput(input, row)
  {
    hide Canonical, Text.TrimSpace;
  }

  lemma RequestIsFromInput(input: CreateCampaignInput, id: UUID, key: string)
    requires Canonical(input.imageObjectKey, Campaigns) == Some(key)
    ensures FromInput(input, RequestedCampaign(id, input, key))
  {
    hide Canonical, Text.TrimSpace;
  }

  /** The fundraiser row that a wallet address selects, case ignored, deleted users skipped. */
  predicate MatchesFundraiser(user: User, walletAddress: string) {
    && user.role == Fundraiser
    && !user.deleted
    && Text.Lower(user.walletAddress) == Text.Lower(Text.TrimSpace(walletAddress))
  }

  predicate HasKey(row: Campaign, fundraiserId: UUID, idempotencyKey: string) {
    row.fundraiserId == fundraiserId && row.idempotencyKey == idempotencyKey
  }

  predicate KeyTaken(campaigns: map<UUID, Campaign>, fundraiserId: UUID, idempotencyKey: string) {
    exists c :: c in campaigns && HasKey(campaigns[c], fundraiserId, idempotencyKey)
  }

  predicate OwnsUndeletable(campaigns: map<UUID, Campaign>, fundraiserId: UUID) {
    exists c :: c in campaigns && campaigns[c].fundraiserId == fundraiserId && campaigns[c].status in {Pending, Active}
  }

  /** campaigns_live_chain_data_check. */
  predicate LiveChainDataCheck(row: Campaign) {
    row.status in {Active, Completed, Cancelled} ==> row.eventId.Some? && row.contractAddress.Some?
  }

  /** What the worker does with a campaign it has loaded. */
  datatype LoadVerdict = Skip | Deploy

  function JudgeLoaded(task: CampaignDeploymentTask, campaign: Campaign): LoadVerdict {
    if HasAddress(campaign) then Skip
    else if campaign.status != Pending then Skip
    else if !TaskMatchesCampaign(task, campaign) then Skip
    else Deploy
  }

  /** The argument checks at the start of CompleteDeployment. */
  predicate CompletionArgumentsValid(eventId: UUID, result: DeploymentResult) {
    && !Text.Blank(result.contractAddress)
    && eventId != Uuid.NIL
    && !Text.Blank(result.txHash)
  }

  datatype LockVerdict = AlreadyActive | NotPending | Record

  /** CompleteDeployment once the campaign row is locked. */
  function JudgeLocked(campaign: Campaign): LockVerdict {
    if campaign.status == Active then
      if HasAddress(campaign) then AlreadyActive else NotPending
    else if campaign.status != Pending then NotPending
    else Record
  }

  function CreationEvent(result: DeploymentResult): BlockchainEvent {
    BlockchainEvent(Text.TrimSpace(result.txHash), result.logIndex, CampaignCreated, result.blockNumber, result.eventCreatedAt)
  }

  /** The event holds what the deployment reported, each value in its own column. */
  predicate EventRecords(event: BlockchainEvent, result: DeploymentResult) {
    && event.kind == CampaignCreated
    && event.txHash == Text.TrimSpace(result.txHash)
    && event.logIndex == result.logIndex
    && event.blockNumber == result.blockNumber
    && event.createdAt == result.eventCreatedAt
  }

  function Activated(campaign: Campaign, eventId: UUID, result: DeploymentResult): Campaign {
    campaign.(status := Active, eventId := Some(eventId), contractAddress := Some(Text.TrimSpace(result.contractAddress)))
  }

  /** The primary key and the (tx_hash, log_index) key of blockchain_events. */
  predicate EventKeyFree(events: map<UUID, BlockchainEvent>, eventId: UUID, event: BlockchainEvent) {
    && eventId !in events
    && forall e :: e in events ==> !SameLog(events[e], event)
  }

  predicate SameLog(a: BlockchainEvent, b: BlockchainEvent) {
    a.txHash == b.txHash && a.logIndex == b.logIndex
  }

  /** The unique key on contract_address. */
  predicate AddressFree(campaigns: map<UUID, Campaign>, campaignId: UUID, address: string) {
    forall c :: c in campaigns && c != campaignId ==> campaigns[c].contractAddress != Some(address)
  }
}
