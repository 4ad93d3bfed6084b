/** The entities shared by the API and the deployer. */
module Domain {
  import opened Options
  import opened Uuid
  import opened Timestamp
  import Text

  datatype CampaignStatus = Pending | Active | Completed | Cancelled | Failed

  datatype Campaign = Campaign(
    id: UUID,
    fundraiserId: UUID,
    eventId: Option<UUID>,
    title: string,
    shortDescription: string,
    story: string,
    goalAmount: int,
    raisedAmount: int,
    donorCount: int,
    contractAddress: Option<string>,
    createdAt: Instant,
    endAt: Instant,
    imageObjectKey: string,
    country: string,
    zipCode: string,
    status: CampaignStatus,
    idempotencyKey: string)

  datatype UserRole = Fundraiser | Supporter

  datatype User = User(role: UserRole, walletAddress: string, deleted: bool)

  /** users_wallet_address_key: live users differ in their wallet address as stored. */
  predicate WalletIndexHolds(users: map<UUID, User>) {
    forall u, v ::
      u in users && v in users && u != v && !users[u].deleted && !users[v].deleted
      ==> users[u].walletAddress != users[v].walletAddress
  }

  /** The index lets in a live user with this wallet address. */
  predicate WalletFree(users: map<UUID, User>, walletAddress: string) {
    forall u :: u in users && !users[u].deleted ==> users[u].walletAddress != walletAddress
  }

  datatype BlockchainEventType =
    CampaignCreated | DonationCreated | Withdrawal | CampaignCancelled | RefundClaimed

  datatype BlockchainEvent = BlockchainEvent(
    txHash: string,
    logIndex: int,
    kind: BlockchainEventType,
    blockNumber: int,
    createdAt: Instant)

  datatype CampaignDeploymentTask = CampaignDeploymentTask(
    campaignId: UUID,
    fundraiserId: UUID,
    fundraiserWallet: string,
    goalAmount: int,
    endAt: Instant,
    chainId: int)

  /** What a deployment reports back. */
  datatype DeploymentResult = DeploymentResult(
    contractAddress: string,
    txHash: string,
    logIndex: int,
    blockNumber: int,
    eventCreatedAt: Instant)

  predicate HasAddress(campaign: Campaign) {
    campaign.contractAddress.Some? && !Text.Blank(campaign.contractAddress.value)
  }

  /** The fields a client chooses when creating a campaign; nothing changes them afterwards. */
  predicate SameCreationFields(a: Campaign, b: Campaign) {
    && a.id == b.id
    && a.fundraiserId == b.fundraiserId
    && a.idempotencyKey == b.idempotencyKey
    && SameCreationPayload(a, b)
  }

  /** sameCampaignCreationPayload. */
  predicate SameCreationPayload(existing: Campaign, requested: Campaign) {
    && existing.title == requested.title
    && existing.shortDescription == requested.shortDescription
    && existing.story == requested.story
    && existing.goalAmount == requested.goalAmount
    && existing.endAt == requested.endAt
    && existing.imageObjectKey == requested.imageObjectKey
    && existing.country == requested.country
    && existing.zipCode == requested.zipCode
  }

  /** needsCampaignDeployment. */
  predicate NeedsDeployment(campaign: Campaign) {
    campaign.status == Pending && !HasAddress(campaign)
  }

  /** deploymentTaskMatchesCampaign. */
  predicate TaskMatchesCampaign(task: CampaignDeploymentTask, campaign: Campaign) {
    && campaign.fundraiserId == task.fundraiserId
    && campaign.goalAmount == task.goalAmount
    && campaign.endAt == task.endAt
  }

  /** The task publishCampaignDeployment builds for a stored campaign. */
  function TaskFor(campaign: Campaign, walletAddress: string, chainId: int): CampaignDeploymentTask {
    CampaignDeploymentTask(campaign.id, campaign.fundraiserId, walletAddress, campaign.goalAmount, campaign.endAt, chainId)
  }
}
