/** The campaign tables and their two locked transactions, run one at a time.
    Pipeline shows that under concurrency every commit has the effect of one of these calls. */
module CampaignRepository {
  import opened Options
  import opened Uuid
  import opened Timestamp
  import opened Domain
  import opened CampaignRules
  import Text

  datatype Tables = Tables(
    users: map<UUID, User>,
    campaigns: map<UUID, Campaign>,
    events: map<UUID, BlockchainEvent>)

  datatype CreateError = FundraiserNotFound | IdempotencyConflict | EndAtTooSoon | RowRejected

  datatype CompletionOutcome =
    | Recorded
    | AlreadyRecorded
    | NotPendingDeployment
    | CampaignNotFound
    | InvalidArguments
    | ConstraintViolated

  /** f is what the fundraiser query may return. */
  predicate Selects(users: map<UUID, User>, walletAddress: string, f: Option<UUID>) {
    match f
    case Some(id) => id in users && MatchesFundraiser(users[id], walletAddress)
    case None => forall id :: id in users ==> !MatchesFundraiser(users[id], walletAddress)
  }

  /** found is what findCampaignByIdempotencyKey may return. */
  predicate Finds(campaigns: map<UUID, Campaign>, fundraiserId: UUID, idempotencyKey: string, found: Option<UUID>) {
    match found
    case Some(c) => c in campaigns && HasKey(campaigns[c], fundraiserId, idempotencyKey)
    case None => !KeyTaken(campaigns, fundraiserId, idempotencyKey)
  }

  /** CreatePending as a function of what its two queries returned. */
  function CreateEffect(
    t: Tables, request: Campaign, f: Option<UUID>, found: Option<UUID>, minimumEndAt: Instant, createdAt: Instant)
    : (Tables, Result<Campaign, CreateError>)
    requires found.Some? ==> found.value in t.campaigns
  {
    if f.None? then (t, Err(FundraiserNotFound))
    else if found.Some? then
      var existing := t.campaigns[found.value];
      if SameCreationPayload(existing, request) then (t, Ok(existing)) else (t, Err(IdempotencyConflict))
    else if request.endAt < minimumEndAt then (t, Err(EndAtTooSoon))
    else if request.goalAmount <= 0 || request.id in t.campaigns then (t, Err(RowRejected))
    else
      var row := request.(fundraiserId := f.value, createdAt := createdAt);
      (t.(campaigns := t.campaigns[row.id := row]), Ok(row))
  }

  /** CompleteDeployment. */
  function CompleteEffect(t: Tables, c: UUID, eventId: UUID, result: DeploymentResult): (Tables, CompletionOutcome) {
    if !CompletionArgumentsValid(eventId, result) then (t, InvalidArguments)
    else if c !in t.campaigns then (t, CampaignNotFound)
    else
      match JudgeLocked(t.campaigns[c])
      case AlreadyActive => (t, AlreadyRecorded)
      case NotPending => (t, NotPendingDeployment)
      case Record =>
        if !EventKeyFree(t.events, eventId, CreationEvent(result)) then (t, ConstraintViolated)
        else if !AddressFree(t.campaigns, c, Text.TrimSpace(result.contractAddress)) then (t, ConstraintViolated)
        else
          (t.(campaigns := t.campaigns[c := Activated(t.campaigns[c], eventId, result)],
              events := t.events[eventId := CreationEvent(result)]),
           Recorded)
  }

  /** The transaction of DeleteProfile on the users table, for the fundraiser its query selected. */
  function DeleteEffect(t: Tables, f: UUID): (Tables, bool)
    requires f in t.users
  {
    if OwnsUndeletable(t.campaigns, f) then (t, false)
    else (t.(users := t.users[f := t.users[f].(deleted := true)]), true)
  }

  // ---- The two transactions, field by field ----

  /** What CompleteDeployment promises: when it changes the tables, how, and what each answer means. */
  predicate CompletionPromise(
    t: Tables, after: Tables, c: UUID, eventId: UUID, result: DeploymentResult, outcome: CompletionOutcome)
  {
    var valid := !Text.Blank(result.contractAddress) && !Text.Blank(result.txHash) && eventId != Uuid.NIL;
    var live := c in t.campaigns && t.campaigns[c].status == Active && HasAddress(t.campaigns[c]);
    var pending := c in t.campaigns && t.campaigns[c].status == Pending;
    var taken :=
      || eventId in t.events
      || (exists e :: e in t.events && t.events[e].txHash == Text.TrimSpace(result.txHash) && t.events[e].logIndex == result.logIndex)
      || (exists d :: d in t.campaigns && d != c && t.campaigns[d].contractAddress == Some(Text.TrimSpace(result.contractAddress)));
    && (outcome == InvalidArguments <==> !valid)
    && (outcome == CampaignNotFound <==> valid && c !in t.campaigns)
    && (outcome == AlreadyRecorded <==> valid && live)
    && (outcome == NotPendingDeployment <==> valid && c in t.campaigns && !live && !pending)
    && (outcome == ConstraintViolated <==> valid && pending && taken)
    && (outcome == Recorded <==> valid && pending && !taken)
    && (outcome != Recorded ==> after == t)
    && (outcome == Recorded ==>
          && after.users == t.users
          && after.campaigns == t.campaigns[c := t.campaigns[c].(
               status := Active, eventId := Some(eventId), contractAddress := Some(Text.TrimSpace(result.contractAddress)))]
          && after.events.Keys == t.events.Keys + {eventId}
          && (forall e :: e in t.events ==> after.events[e] == t.events[e])
          && EventRecords(after.events[eventId], result))
  }

  /** The arguments of CreatePending ask for a row that the table may take. */
  predicate CreationPromise(
    t: Tables, after: Tables, request: Campaign, f: Option<UUID>, found: Option<UUID>, minimumEndAt: Instant,
    createdAt: Instant, r: Result<Campaign, CreateError>)
    requires found.Some? ==> found.value in t.campaigns
  {
    var fits := request.goalAmount > 0 && request.id !in t.campaigns;
    && (r == Err(FundraiserNotFound) <==> f.None?)
    && (r == Err(IdempotencyConflict) <==> f.Some? && found.Some? && !AsksFor(request, t.campaigns[found.value]))
    && (r == Err(EndAtTooSoon) <==> f.Some? && found.None? && request.endAt < minimumEndAt)
    && (r == Err(RowRejected) <==> f.Some? && found.None? && minimumEndAt <= request.endAt && !fits)
    && (f.Some? && found.Some? && AsksFor(request, t.campaigns[found.value]) ==> r == Ok(t.campaigns[found.value]) && after == t)
    && (r.Err? ==> after == t)
    && (f.Some? && found.None? && minimumEndAt <= request.endAt && fits ==>
          && r == Ok(request.(fundraiserId := f.value, createdAt := createdAt))
          && after == t.(campaigns := t.campaigns[request.id := r.value]))
  }

  /** A request asks for the payload of a stored row. */
  predicate AsksFor(request: Campaign, row: Campaign) {
    && request.title == row.title && request.shortDescription == row.shortDescription && request.story == row.story
    && request.goalAmount == row.goalAmount && request.endAt == row.endAt
    && request.imageObjectKey == row.imageObjectKey
    && request.country == row.country && request.zipCode == row.zipCode
  }

  lemma CompletionByFields(t: Tables, c: UUID, eventId: UUID, result: DeploymentResult)
    ensures
      var (after, outcome) := CompleteEffect(t, c, eventId, result);
      CompletionPromise(t, after, c, eventId, result, outcome)
  {
    hide Text.TrimSpace, HasAddress;
  }

  lemma CreationByFields(
    t: Tables, request: Campaign, f: Option<UUID>, found: Option<UUID>, minimumEndAt: Instant, createdAt: Instant)
    requires found.Some? ==> found.value in t.campaigns
    requires f.None? ==> found.None?
    ensures
      var (after, r) := CreateEffect(t, request, f, found, minimumEndAt, createdAt);
      CreationPromise(t, after, request, f, found, minimumEndAt, createdAt, r)
  {
  }

  class Repository {
    var users: map<UUID, User>
    var campaigns: map<UUID, Campaign>
    var events: map<UUID, BlockchainEvent>

    ghost function Contents(): Tables
      reads this
    {
      Tables(users, campaigns, events)
    }

    constructor ()
      ensures Contents() == Tables(map[], map[], map[])
    {
      users, campaigns, events := map[], map[], map[];
    }

    /** Returns the stored row; the ghost results are what the two queries returned. */
    method CreatePending(walletAddress: string, request: Campaign, minimumEndAt: Instant, createdAt: Instant)
      returns (r: Result<Campaign, CreateError>, ghost f: Option<UUID>, ghost found: Option<UUID>)
      modifies this
      ensures Selects(old(users), walletAddress, f)
      ensures f.Some? ==> Finds(old(campaigns), f.value, request.idempotencyKey, found)
      ensures f.None? ==> found.None?
      ensures (Contents(), r) == CreateEffect(old(Contents()), request, f, found, minimumEndAt, createdAt)
      ensures CreationPromise(old(Contents()), Contents(), request, f, found, minimumEndAt, createdAt, r)
    {
      hide CreationPromise, SameCreationPayload, Text.TrimSpace, Text.Lower;
      ghost var before := Contents();
      found := None;
      if fundraiserId :| fundraiserId in users && MatchesFundraiser(users[fundraiserId], walletAddress) {
        f := Some(fundraiserId);
        if c :| c in campaigns && HasKey(campaigns[c], fundraiserId, request.idempotencyKey) {
          found := Some(c);
          r := if SameCreationPayload(campaigns[c], request) then Ok(campaigns[c]) else Err(IdempotencyConflict);
        } else if request.endAt < minimumEndAt {
          r := Err(EndAtTooSoon);
        } else if request.goalAmount <= 0 || request.id in campaigns {
          r := Err(RowRejected);
        } else {
          var row := request.(fundraiserId := fundraiserId, createdAt := createdAt);
          campaigns := campaigns[row.id := row];
          r := Ok(row);
        }
      } else {
        f := None;
        r := Err(FundraiserNotFound);
      }
      CreationByFields(before, request, f, found, minimumEndAt, createdAt);
    }

    method CompleteDeployment(campaignId: UUID, eventId: UUID, result: DeploymentResult)
      returns (outcome: CompletionOutcome)
      modifies this
      ensures (Contents(), outcome) == CompleteEffect(old(Contents()), campaignId, eventId, result)
      ensures CompletionPromise(old(Contents()), Contents(), campaignId, eventId, result, outcome)
    {
      hide CompletionPromise, EventKeyFree, AddressFree, CompletionArgumentsValid, CreationEvent, HasAddress, Text.TrimSpace;
      CompletionByFields(Contents(), campaignId, eventId, result);
      if !CompletionArgumentsValid(eventId, result) {
        return InvalidArguments;
      }
      if campaignId !in campaigns {
        return CampaignNotFound;
      }
      var campaign := campaigns[campaignId];
      if campaign.status == Active {
        return if HasAddress(campaign) then AlreadyRecorded else NotPendingDeployment;
      }
      if campaign.status != Pending {
        return NotPendingDeployment;
      }
      var event := CreationEvent(result);
      if !EventKeyFree(events, eventId, event) {
        return ConstraintViolated;
      }
      var address := Text.TrimSpace(result.contractAddress);
      if !AddressFree(campaigns, campaignId, address) {
        return ConstraintViolated;
      }
      events := events[eventId := event];
      campaigns := campaigns[campaignId := campaign.(status := Active, eventId := Some(eventId), contractAddress := Some(address))];
      return Recorded;
    }
  }
}
