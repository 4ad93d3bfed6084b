/** CampaignService.Create, run without interruption and without infrastructure errors. */
module CampaignService {
  import opened Options
  import opened Uuid
  import opened Timestamp
  import opened Domain
  import opened ObjectKeys
  import opened CampaignRules
  import opened CampaignRepository
  import opened DeploymentCodec
  import opened ObjectStore
  import Text

  datatype ServiceError = InvalidImageObjectKey | ImageObjectNotFound | StoreRefused | Repository(error: CreateError) | ChainIdRequired

  /** What a call leaves behind and answers. */
  datatype CreateReply = CreateReply(
    tables: Tables,
    objects: set<string>,
    published: Option<Message>,
    result: Result<Campaign, ServiceError>)

  /** The call once the image is in place: store, discard, publish. */
  function StoreAndPublish(
    chainId: int, t: Tables, objects: set<string>, input: CreateCampaignInput, request: Campaign, minimumEndAt: Instant,
    createdAt: Instant, f: Option<UUID>, found: Option<UUID>): CreateReply
    requires found.Some? ==> found.value in t.campaigns
  {
    var (t', stored) := CreateEffect(t, request, f, found, minimumEndAt, createdAt);
    if stored.Err? then CreateReply(t', objects, None, Err(Repository(stored.error)))
    else
      var objects' := Removed(objects, Text.TrimSpace(input.imageObjectKey));
      if !NeedsDeployment(stored.value) then CreateReply(t', objects', None, Ok(stored.value))
      else if chainId <= 0 then CreateReply(t', objects', None, Err(ChainIdRequired))
      else
        var task := TaskFor(stored.value, Text.TrimSpace(input.walletAddress), chainId);
        CreateReply(t', objects', Some(Encode(task)), Ok(stored.value))
  }

  /** The whole call, promotion first. f and found are the query results. */
  function CreateCall(
    chainId: int, t: Tables, objects: set<string>, input: CreateCampaignInput, id: UUID, now: Instant, createdAt: Instant,
    f: Option<UUID>, found: Option<UUID>): CreateReply
    requires found.Some? ==> found.value in t.campaigns
  {
    var canonical := Canonical(Text.TrimSpace(input.imageObjectKey), Campaigns);
    if canonical.None? then CreateReply(t, objects, None, Err(InvalidImageObjectKey))
    else
      var promotion := Promoted(objects, Text.TrimSpace(input.imageObjectKey), canonical.value);
      if promotion.1 == Some(ObjectNotFound) then CreateReply(t, promotion.0, None, Err(ImageObjectNotFound))
      else if promotion.1.Some? then CreateReply(t, promotion.0, None, Err(StoreRefused))
      else
        StoreAndPublish(
          chainId, t, promotion.0, input, RequestedCampaign(id, input, canonical.value),
          now + CAMPAIGN_DEPLOYMENT_LEAD_TIME, createdAt, f, found)
  }

  /** Trimming the image key first changes nothing: Canonical trims too. */
  lemma CanonicalOfTrimmed(key: string)
    ensures Canonical(Text.TrimSpace(key), Campaigns) == Canonical(key, Campaigns)
  {
    hide Text.TrimSpace, Text.Trimmed, Text.HasPrefix, ContainsDotDot, ImageName;
    assert Text.TrimSpace(Text.TrimSpace(key)) == Text.TrimSpace(key);
  }

  class TaskQueue {
    var published: seq<Message>

    constructor ()
      ensures published == []
    {
      published := [];
    }

    method Publish(body: Message)
      modifies this
      ensures published == old(published) + [body]
    {
      published := published + [body];
    }
  }

  class Service {
    const repository: Repository
    const bucket: Bucket
    const queue: TaskQueue
    const chainId: int

    constructor (repository: Repository, bucket: Bucket, queue: TaskQueue, chainId: int)
      ensures this.repository == repository && this.bucket == bucket && this.queue == queue && this.chainId == chainId
    {
      this.repository, this.bucket, this.queue, this.chainId := repository, bucket, queue, chainId;
    }

    method Create(input: CreateCampaignInput, id: UUID, now: Instant, createdAt: Instant)
      returns (r: Result<Campaign, ServiceError>, ghost f: Option<UUID>, ghost found: Option<UUID>)
      modifies repository, bucket, queue
      ensures found.Some? ==> found.value in old(repository.campaigns)
      ensures
        r.Ok? || r.error.Repository? || r.error.ChainIdRequired? ==>
          && Selects(old(repository.users), input.walletAddress, f)
          && (f.Some? ==> Finds(old(repository.campaigns), f.value, Text.TrimSpace(input.idempotencyKey), found))
          && (f.None? ==> found.None?)
      ensures
        var reply := CreateCall(chainId, old(repository.Contents()), old(bucket.objects), input, id, now, createdAt, f, found);
        && r == reply.result
        && repository.Contents() == reply.tables
        && bucket.objects == reply.objects
        && queue.published == old(queue.published) + (if reply.published.Some? then [reply.published.value] else [])
    {
      hide Canonical, Encode, NeedsDeployment, RequestedCampaign, Promoted, Removed, CreateEffect, Selects, Finds,
           CreationPromise, Text.TrimSpace;
      f, found := None, None;
      var stagingKey := Text.TrimSpace(input.imageObjectKey);
      var canonical := Canonical(stagingKey, Campaigns);
      if canonical.None? {
        r := Err(InvalidImageObjectKey);
        return;
      }
      var storeError := bucket.Promote(stagingKey, canonical.value);
      if storeError.Some? {
        r := Err(if storeError.value == ObjectNotFound then ImageObjectNotFound else StoreRefused);
        return;
      }
      var request := RequestedCampaign(id, input, canonical.value);
      var stored;
      stored, f, found := repository.CreatePending(
        Text.TrimSpace(input.walletAddress), request, now + CAMPAIGN_DEPLOYMENT_LEAD_TIME, createdAt);
      QueriesOf(old(repository.Contents()), input, id, canonical.value, f, found);
      if stored.Err? {
        r := Err(Repository(stored.error));
        return;
      }
      bucket.Remove(stagingKey);
      r := Ok(stored.value);
      if NeedsDeployment(stored.value) {
        if chainId <= 0 {
          r := Err(ChainIdRequired);
          return;
        }
        queue.Publish(Encode(TaskFor(stored.value, Text.TrimSpace(input.walletAddress), chainId)));
      }
      StoredNeedsFundraiser(old(repository.Contents()), request, f, found, now + CAMPAIGN_DEPLOYMENT_LEAD_TIME, createdAt);
    }
  }

  /** The wallet is trimmed once more in the query, and the key was trimmed in the request. */
  lemma QueriesOf(t: Tables, input: CreateCampaignInput, id: UUID, key: string, f: Option<UUID>, found: Option<UUID>)
    requires Selects(t.users, Text.TrimSpace(input.walletAddress), f)
    requires f.Some? ==> Finds(t.campaigns, f.value, RequestedCampaign(id, input, key).idempotencyKey, found)
    requires f.None? ==> found.None?
    ensures Selects(t.users, input.walletAddress, f)
    ensures f.Some? ==> Finds(t.campaigns, f.value, Text.TrimSpace(input.idempotencyKey), found)
    ensures found.Some? ==> found.value in t.campaigns
  {
    hide Text.Lower, Text.TrimSpace, Text.Trimmed, KeyTaken, HasKey;
    assert Text.TrimSpace(Text.TrimSpace(input.walletAddress)) == Text.TrimSpace(input.walletAddress);
  }

  lemma StoredNeedsFundraiser(
    t: Tables, request: Campaign, f: Option<UUID>, found: Option<UUID>, minimumEndAt: Instant, createdAt: Instant)
    requires found.Some? ==> found.value in t.campaigns
    requires CreateEffect(t, request, f, found, minimumEndAt, createdAt).1.Ok?
    ensures f.Some?
  {
  }

  /** Storing and publishing answer with the row that is in the table. */
  lemma SuccessfulStore(
    chainId: int, t: Tables, objects: set<string>, input: CreateCampaignInput, request: Campaign, minimumEndAt: Instant,
    createdAt: Instant, f: Option<UUID>, found: Option<UUID>)
    requires FromInput(input, request)
    requires f.Some? ==> Finds(t.campaigns, f.value, request.idempotencyKey, found)
    requires f.None? ==> found.None?
    requires forall c :: c in t.campaigns ==> t.campaigns[c].id == c
    ensures
      var reply := StoreAndPublish(chainId, t, objects, input, request, minimumEndAt, createdAt, f, found);
      && (reply.result.Err? ==> reply.published.None?)
      && (reply.result.Ok? ==>
            var row := reply.result.value;
            && row.id in reply.tables.campaigns && reply.tables.campaigns[row.id] == row
            && FromInput(input, row) && f.Some? && row.fundraiserId == f.value
            && reply.objects == Removed(objects, Text.TrimSpace(input.imageObjectKey))
            && (reply.published.Some? <==> NeedsDeployment(row))
            && (reply.published.Some? ==>
                  chainId > 0 && reply.published.value == Encode(TaskFor(row, Text.TrimSpace(input.walletAddress), chainId)))
            && (found.None? ==> row == request.(fundraiserId := f.value, createdAt := createdAt) && minimumEndAt <= row.endAt))
  {
    hide Canonical, Encode, NeedsDeployment, KeyTaken, FromInput, Removed, SameCreationPayload;
    if found.Some? {
      FoundRow(input, request, t.campaigns[found.value]);
    } else if f.Some? {
      var row := request.(fundraiserId := f.value, createdAt := createdAt);
      assert FromInput(input, row) by { SamePayloadSelf(request, row); FoundRow(input, request, row); }
    }
  }

  lemma SamePayloadSelf(request: Campaign, row: Campaign)
    requires row == request.(fundraiserId := row.fundraiserId, createdAt := row.createdAt)
    ensures SameCreationPayload(row, request) && row.idempotencyKey == request.idempotencyKey && row.id == request.id
  {
  }

  /** A call that answers with a campaign has stored it: the answer is the row under its own id, it
      is what the input asks for, its image is in the bucket, staging is gone, and a task went out
      exactly when the row still needs deployment. */
  lemma SuccessfulCreate(
    chainId: int, t: Tables, objects: set<string>, input: CreateCampaignInput, id: UUID, now: Instant, createdAt: Instant,
    f: Option<UUID>, found: Option<UUID>)
    requires f.Some? ==> Finds(t.campaigns, f.value, Text.TrimSpace(input.idempotencyKey), found)
    requires f.None? ==> found.None?
    requires forall c :: c in t.campaigns ==> t.campaigns[c].id == c
    ensures
      var reply := CreateCall(chainId, t, objects, input, id, now, createdAt, f, found);
      reply.result.Ok? ==>
        var row := reply.result.value;
        && row.id in reply.tables.campaigns && reply.tables.campaigns[row.id] == row
        && FromInput(input, row) && f.Some? && row.fundraiserId == f.value
        && row.imageObjectKey in reply.objects
        && Text.TrimSpace(input.imageObjectKey) !in reply.objects
        && (reply.published.Some?
            <==> row.status == Pending
                 && (row.contractAddress.None? || Text.TrimSpace(row.contractAddress.value) == ""))
        && (reply.published.Some? ==>
              && chainId > 0
              && reply.published.value == Encode(CampaignDeploymentTask(
                   campaignId := row.id, fundraiserId := row.fundraiserId,
                   fundraiserWallet := Text.TrimSpace(input.walletAddress),
                   goalAmount := row.goalAmount, endAt := row.endAt, chainId := chainId)))
        && (found.None? ==>
              && row.id == id && now + CAMPAIGN_DEPLOYMENT_LEAD_TIME <= row.endAt && row.createdAt == createdAt
              && row.status == Pending && row.eventId.None? && row.contractAddress.None?
              && row.raisedAmount == 0 && row.donorCount == 0)
  {
    hide Canonical, Encode, KeyTaken, FromInput, StoreAndPublish, Promoted, Removed, Text.TrimSpace;
    CanonicalOfTrimmed(input.imageObjectKey);
    var stagingKey := Text.TrimSpace(input.imageObjectKey);
    var canonical := Canonical(stagingKey, Campaigns);
    if canonical.Some? && Promoted(objects, stagingKey, canonical.value).1.None? {
      var request := RequestedCampaign(id, input, canonical.value);
      RequestIsFromInput(input, id, canonical.value);
      SuccessfulStore(
        chainId, t, Promoted(objects, stagingKey, canonical.value).0, input, request,
        now + CAMPAIGN_DEPLOYMENT_LEAD_TIME, createdAt, f, found);
      PromotedThenDiscarded(objects, input.imageObjectKey);
      var reply := CreateCall(chainId, t, objects, input, id, now, createdAt, f, found);
      if reply.result.Ok? {
        ImageOfRow(input, reply.result.value);
      }
    }
  }

  /** When a call answers with a campaign, told from what it finds: the image key is valid and the
      image in one of its two places, the fundraiser is found, and either the key is free and the row
      acceptable, or the stored row is what the input asks for; and where a message is due, the chain
      id is set. */
  lemma CreateSucceedsExactly(
    chainId: int, t: Tables, objects: set<string>, input: CreateCampaignInput, id: UUID, now: Instant, createdAt: Instant,
    f: Option<UUID>, found: Option<UUID>)
    requires f.Some? ==> Finds(t.campaigns, f.value, Text.TrimSpace(input.idempotencyKey), found)
    requires f.None? ==> found.None?
    ensures
      CreateCall(chainId, t, objects, input, id, now, createdAt, f, found).result.Ok?
      <==> (var canonical := Canonical(input.imageObjectKey, Campaigns);
            && canonical.Some? && (canonical.value in objects || Text.TrimSpace(input.imageObjectKey) in objects)
            && f.Some?
            && (if found.Some? then
                  FromInput(input, t.campaigns[found.value]) && (NeedsDeployment(t.campaigns[found.value]) ==> chainId > 0)
                else
                  && now + CAMPAIGN_DEPLOYMENT_LEAD_TIME <= TruncateToMicrosecond(input.endAt)
                  && input.goalAmount > 0 && id !in t.campaigns && chainId > 0))
  {
    hide Canonical, Encode, KeyTaken, FromInput, Removed, Text.TrimSpace, SameCreationPayload, TruncateToMicrosecond, Text.HasPrefix;
    CanonicalOfTrimmed(input.imageObjectKey);
    var staging := Text.TrimSpace(input.imageObjectKey);
    var canonical := Canonical(staging, Campaigns);
    if canonical.Some? {
      CanonicalLeavesStaging(staging, Campaigns);
      assert Text.TrimSpace(staging) == staging;
      KeysUsable(staging, canonical.value);
      var request := RequestedCampaign(id, input, canonical.value);
      RequestIsFromInput(input, id, canonical.value);
      if found.Some? {
        FoundRow(input, request, t.campaigns[found.value]);
      }
    }
  }

  lemma KeysUsable(staging: string, canonical: string)
    requires Text.HasPrefix(staging, STAGING_PREFIX) && !Text.HasPrefix(canonical, STAGING_PREFIX)
    requires Text.HasPrefix(canonical, "campaigns/")
    ensures staging != "" && canonical != "" && staging != canonical
  {
  }

  lemma ImageOfRow(input: CreateCampaignInput, row: Campaign)
    requires FromInput(input, row)
    ensures Canonical(input.imageObjectKey, Campaigns) == Some(row.imageObjectKey)
  {
    hide Canonical, Text.TrimSpace;
  }

  lemma PromotedThenDiscarded(objects: set<string>, imageObjectKey: string)
    requires Canonical(Text.TrimSpace(imageObjectKey), Campaigns).Some?
    requires Promoted(objects, Text.TrimSpace(imageObjectKey), Canonical(Text.TrimSpace(imageObjectKey), Campaigns).value).1.None?
    ensures
      var staging := Text.TrimSpace(imageObjectKey);
      var canonical := Canonical(staging, Campaigns).value;
      var after := Removed(Promoted(objects, staging, canonical).0, staging);
      canonical in after && staging !in after
  {
    hide Canonical, Text.TrimSpace, Text.HasPrefix;
    var staging := Text.TrimSpace(imageObjectKey);
    CanonicalLeavesStaging(staging, Campaigns);
    assert Text.TrimSpace(staging) == staging;
  }
}
