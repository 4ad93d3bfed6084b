/** The queue message of a campaign deployment task: writing it and reading it back.
    The message is the JSON object's six fields; JSON syntax itself is not modelled. */
module DeploymentCodec {
  import opened Options
  import opened Decimals
  import opened Uuid
  import opened Timestamp
  import opened Domain
  import Text

  datatype Message = Message(
    campaignId: string,
    fundraiserId: string,
    fundraiserWallet: string,
    goalAmount: int,
    endAt: string,
    chainId: int)

  datatype DecodeError =
    | BadCampaignId
    | BadFundraiserId
    | BadEndAt
    | ChainIdNotPositive
    | WalletMissing
    | GoalNotPositive

  /** campaignDeploymentBody. */
  function Encode(task: CampaignDeploymentTask): Message {
    Message(
      Uuid.ToString(task.campaignId),
      Uuid.ToString(task.fundraiserId),
      task.fundraiserWallet,
      task.goalAmount,
      FormatRFC3339(task.endAt),
      task.chainId)
  }

  /** DecodeCampaignDeploymentMessage, checks in the source's order. */
  function Decode(message: Message): (r: Result<CampaignDeploymentTask, DecodeError>) {
    match Uuid.Parse(Text.TrimSpace(message.campaignId))
    case None => Err(BadCampaignId)
    case Some(campaignId) =>
      match Uuid.Parse(Text.TrimSpace(message.fundraiserId))
      case None => Err(BadFundraiserId)
      case Some(fundraiserId) =>
        match ParseRFC3339(Text.TrimSpace(message.endAt))
        case None => Err(BadEndAt)
        case Some(endAt) =>
          if message.chainId <= 0 then Err(ChainIdNotPositive)
          else if Text.Blank(message.fundraiserWallet) then Err(WalletMissing)
          else if message.goalAmount <= 0 then Err(GoalNotPositive)
          else Ok(CampaignDeploymentTask(
                    campaignId, fundraiserId, Text.TrimSpace(message.fundraiserWallet),
                    message.goalAmount, endAt, message.chainId))
  }

  /** Which messages are read, and which field of the task each one of theirs becomes. */
  lemma DecodedFields(message: Message)
    ensures Decode(message).Ok?
            <==> && Uuid.Parse(Text.TrimSpace(message.campaignId)).Some?
                 && Uuid.Parse(Text.TrimSpace(message.fundraiserId)).Some?
                 && ParseRFC3339(Text.TrimSpace(message.endAt)).Some?
                 && message.chainId > 0 && message.goalAmount > 0
                 && Text.TrimSpace(message.fundraiserWallet) != ""
    ensures Decode(message).Ok? ==>
              var task := Decode(message).value;
              && Uuid.Parse(Text.TrimSpace(message.campaignId)) == Some(task.campaignId)
              && Uuid.Parse(Text.TrimSpace(message.fundraiserId)) == Some(task.fundraiserId)
              && ParseRFC3339(Text.TrimSpace(message.endAt)) == Some(task.endAt)
              && task.fundraiserWallet == Text.TrimSpace(message.fundraiserWallet)
              && task.goalAmount == message.goalAmount && task.chainId == message.chainId
  {
    hide Uuid.Parse, ParseRFC3339, Text.TrimSpace;
  }

  /** The published message names each id in its own field, in the canonical text, and carries the wallet,
      the goal and the chain id unchanged. */
  lemma EncodedFields(task: CampaignDeploymentTask)
    ensures
      var message := Encode(task);
      && |message.campaignId| == 36 && Uuid.Parse(message.campaignId) == Some(task.campaignId)
      && |message.fundraiserId| == 36 && Uuid.Parse(message.fundraiserId) == Some(task.fundraiserId)
      && message.fundraiserWallet == task.fundraiserWallet
      && message.goalAmount == task.goalAmount && message.chainId == task.chainId
      && (0 <= YearOf(task.endAt) <= 9999 ==> ParseRFC3339(message.endAt) == Some(FloorToSecond(task.endAt)))
  {
    hide Uuid.Parse, Uuid.ToString, ParseRFC3339, FormatRFC3339;
    ParseToString(task.campaignId);
    ParseToString(task.fundraiserId);
    ParseFormat(task.endAt);
  }

  /** Exactly the tasks whose message the deployer can read. */
  predicate Encodable(task: CampaignDeploymentTask) {
    && 0 <= YearOf(task.endAt) <= 9999
    && task.chainId > 0
    && !Text.Blank(task.fundraiserWallet)
    && task.goalAmount > 0
  }

  lemma FormattedIsTrimmed(t: Instant)
    ensures Text.Trimmed(FormatRFC3339(t))
  {
    var s := FormatRFC3339(t);
    var year := FormatYear(YearOf(t));
    assert s[0] == year[0] && (year[0] == '-' || IsDigit(year[0]));
    assert s[|s| - 1] == 'Z';
  }

  lemma EncodedIdsParse(task: CampaignDeploymentTask)
    ensures Uuid.Parse(Text.TrimSpace(Encode(task).campaignId)) == Some(task.campaignId)
    ensures Uuid.Parse(Text.TrimSpace(Encode(task).fundraiserId)) == Some(task.fundraiserId)
  {
    ParseToString(task.campaignId);
    ParseToString(task.fundraiserId);
    ToStringTrimmed(task.campaignId);
    ToStringTrimmed(task.fundraiserId);
  }

  lemma EncodedEndAtParses(task: CampaignDeploymentTask)
    ensures
      var read := ParseRFC3339(Text.TrimSpace(Encode(task).endAt));
      if 0 <= YearOf(task.endAt) <= 9999 then read == Some(FloorToSecond(task.endAt)) else read == None
  {
    FormattedIsTrimmed(task.endAt);
    ParseFormat(task.endAt);
  }

  /** What is published is read back with the wallet trimmed and the end time floored to the
      second, and it is read back at all exactly for encodable tasks. */
  lemma DecodeEncode(task: CampaignDeploymentTask)
    ensures Encodable(task) ==>
              Decode(Encode(task)) == Ok(task.(fundraiserWallet := Text.TrimSpace(task.fundraiserWallet),
                                               endAt := FloorToSecond(task.endAt)))
    ensures Decode(Encode(task)).Ok? <==> Encodable(task)
  {
    hide Uuid.Parse, Uuid.ToString, ParseRFC3339, FormatRFC3339, Text.TrimSpace;
    EncodedIdsParse(task);
    EncodedEndAtParses(task);
  }

  /** The worker accepts the task published for a stored campaign exactly when it is encodable and
      the stored end time is a whole second. */
  lemma PublishedTaskMatches(campaign: Campaign, walletAddress: string, chainId: int)
    ensures
      var task := TaskFor(campaign, walletAddress, chainId);
      var read := Decode(Encode(task));
      (read.Ok? && TaskMatchesCampaign(read.value, campaign)) <==> (Encodable(task) && WholeSecond(campaign.endAt))
  {
    hide Decode, Encode, YearOf;
    DecodeEncode(TaskFor(campaign, walletAddress, chainId));
  }

  /** A stored end time with a sub-second part, which storage keeps to the microsecond, is never
      matched: the message drops that part. */
  lemma SubSecondEndTimeNeverMatches(campaign: Campaign, walletAddress: string, chainId: int)
    requires !WholeSecond(campaign.endAt)
    ensures
      var read := Decode(Encode(TaskFor(campaign, walletAddress, chainId)));
      read.Ok? ==> !TaskMatchesCampaign(read.value, campaign)
  {
    hide Decode, Encode, Encodable;
    PublishedTaskMatches(campaign, walletAddress, chainId);
  }
}
