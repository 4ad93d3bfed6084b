/** One lemma per step that changes shared data. */
module PipelineSteps {
  import opened Options
  import opened Uuid
  import opened Timestamp
  import opened Domain
  import opened ObjectKeys
  import opened CampaignRules
  import opened DeploymentCodec
  import opened Pipeline
  import opened PipelineInvariant
  import opened PipelineProof
  import opened PipelineCommits
  import StubDeployer
  import Text

  lemma EvolvesReflexive(db: Db)
    ensures Evolves(db, db)
  {
    hide Text.HasPrefix;
  }

  predicate SameTables(db: Db, db': Db) {
    db'.users == db.users && db'.campaigns == db.campaigns && db'.events == db.events
  }

  /** A process step that leaves users, campaigns and events alone. */
  lemma QuietStep(cfg: Config, s: State, db': Db, pid: nat, p: Proc)
    requires Inv(cfg, s) && SameTables(s.db, db') && Evolves(s.db, db') && DbInv(cfg, db') && ProcInv(cfg, db', p)
    requires MayEnter(s, pid, p) || (pid in s.procs && HoldsNoMore(p, s.procs[pid]))
    ensures Inv(cfg, To(s, pid, p).(db := db'))
  {
    hide DbInv, Separate, ProcInv, Evolves, Undisturbed, MayEnter, HoldsNoMore;
    forall q | q in s.procs && q != pid
      ensures Undisturbed(s.db, db', s.procs[q])
    {
      NobodyDisturbed(s.db, db', s.procs[q]);
    }
    SharedStep(cfg, s, db', pid, p);
  }

  lemma QuietRelease(cfg: Config, s: State, db': Db, pid: nat, p: Proc)
    requires Inv(cfg, s) && SameTables(s.db, db') && Evolves(s.db, db') && DbInv(cfg, db') && ProcInv(cfg, db', p)
    requires pid in s.procs && HoldsNothing(p)
    ensures Inv(cfg, To(s, pid, p).(db := db'))
  {
    hide Inv, DbInv, ProcInv, Evolves, UserLock, CampaignLock, NewCampaignId, NewEvent, NewAddress;
    QuietStep(cfg, s, db', pid, p);
  }

  lemma QuietEnvironment(cfg: Config, s: State, db': Db)
    requires Inv(cfg, s) && SameTables(s.db, db') && Evolves(s.db, db') && DbInv(cfg, db')
    ensures Inv(cfg, s.(db := db'))
  {
    hide DbInv, Separate, ProcInv, Evolves, Undisturbed;
    forall q | q in s.procs
      ensures Undisturbed(s.db, db', s.procs[q])
    {
      NobodyDisturbed(s.db, db', s.procs[q]);
    }
    EnvironmentStep(cfg, s, db');
  }

  lemma Committed(cfg: Config, s: State)
    requires Inv(cfg, s)
    ensures DbInv(cfg, s.db)
  {
    hide DbInv, ProcInv, Separate;
  }

  // ---- Objects ----

  lemma ObjectsMayChange(cfg: Config, db: Db, objects: set<string>)
    requires DbInv(cfg, db)
    requires forall key :: key in db.objects && Text.HasPrefix(key, "campaigns/") ==> key in objects
    ensures Evolves(db, db.(objects := objects)) && DbInv(cfg, db.(objects := objects))
  {
    hide Text.HasPrefix, RowInv, Decode, UniqueRows, EventsUnique, DeploymentInv, EventOwned;
    var db' := db.(objects := objects);
    forall mid | mid in db'.messages
      ensures MessageInv(cfg, db', mid)
    {
      assert MessageInv(cfg, db, mid);
      MessageKept(cfg, db, db', mid);
    }
    TablesKept(cfg, db, db');
  }

  lemma CopyImageKeeps(cfg: Config, s: State, s': State, pid: nat, now: Instant)
    requires Inv(cfg, s) && CopyImage(s, s', pid, now)
    ensures Inv(cfg, s') && Evolves(s.db, s'.db)
  {
    hide Inv, ProcInv, Canonical, Evolves, Text.TrimSpace, RequestedCampaign;
    Committed(cfg, s);
    var Promoting(input, id, _) := s.procs[pid];
    Local(cfg, s, pid);
    if Text.TrimSpace(input.imageObjectKey) in s.db.objects {
      assert id !in s.db.campaigns by { PromotingHasFreshId(cfg, s.db, s.procs[pid]); }
      ObjectsMayChange(cfg, s.db, s'.db.objects);
      RequestIsNewRow(cfg, s'.db, input, id, now);
      QuietStep(cfg, s, s'.db, pid, s'.procs[pid]);
    } else {
      EvolvesReflexive(s.db);
      FailedCreateIsFine(cfg, s.db, input);
      ProcessReleases(cfg, s, pid, s'.procs[pid]);
    }
  }

  lemma PromotingHasFreshId(cfg: Config, db: Db, p: Proc)
    requires p.Promoting? && ProcInv(cfg, db, p)
    ensures p.id !in db.campaigns
  {
  }

  lemma FailedCreateIsFine(cfg: Config, db: Db, input: CreateCampaignInput)
    ensures ProcInv(cfg, db, CreateFailed(input))
  {
  }

  lemma DiscardStagingKeeps(cfg: Config, s: State, s': State, pid: nat, removed: bool)
    requires Inv(cfg, s) && DiscardStaging(s, s', pid, removed)
    ensures Inv(cfg, s') && Evolves(s.db, s'.db)
  {
    hide Inv, ProcInv, Canonical, Evolves, Text.TrimSpace, Text.HasPrefix, SameCreationFields;
    Committed(cfg, s);
    var Discarding(input, row) := s.procs[pid];
    Local(cfg, s, pid);
    DiscardedWasPromoted(cfg, s.db, input, row);
    var staging := Text.TrimSpace(input.imageObjectKey);
    CanonicalLeavesStaging(input.imageObjectKey, Campaigns);
    NameSpacesDisjoint(staging);
    ObjectsMayChange(cfg, s.db, s'.db.objects);
    StoredCopyIsFine(cfg, s.db, s'.db, s.procs[pid], s'.procs[pid]);
    QuietRelease(cfg, s, s'.db, pid, s'.procs[pid]);
  }

  lemma ObjectsChangeKeeps(cfg: Config, s: State, s': State, added: set<string>, removed: set<string>)
    requires Inv(cfg, s) && ObjectsChange(s, s', added, removed)
    ensures Inv(cfg, s') && Evolves(s.db, s'.db)
  {
    hide Inv, Evolves, Text.HasPrefix;
    Committed(cfg, s);
    ObjectsMayChange(cfg, s.db, s'.db.objects);
    QuietEnvironment(cfg, s, s'.db);
  }

  // ---- Messages ----

  lemma MessagesMayChange(cfg: Config, db: Db, messages: map<nat, QueueMessage>)
    requires DbInv(cfg, db)
    requires forall m :: m in db.messages ==> m in messages && messages[m].body == db.messages[m].body
    requires forall m :: m in messages ==> MessageInv(cfg, db.(messages := messages), m)
    ensures Evolves(db, db.(messages := messages)) && DbInv(cfg, db.(messages := messages))
  {
    hide Text.HasPrefix, RowInv, MessageInv, UniqueRows, EventsUnique, DeploymentInv, EventOwned;
    TablesKept(cfg, db, db.(messages := messages));
  }

  /** A message moves between queue, handler and acknowledged; only a droppable one is acknowledged. */
  lemma MessageMoves(cfg: Config, db: Db, mid: nat, state: MessageState)
    requires DbInv(cfg, db) && mid in db.messages
    requires state == Acked ==> SafeToDrop(cfg, db, db.messages[mid].body)
    ensures
      var db' := db.(messages := db.messages[mid := db.messages[mid].(state := state)]);
      Evolves(db, db') && DbInv(cfg, db')
  {
    hide RowInv, Decode, UniqueRows, EventsUnique, DeploymentInv, EventOwned;
    var messages := db.messages[mid := db.messages[mid].(state := state)];
    var db' := db.(messages := messages);
    forall m | m in messages
      ensures MessageInv(cfg, db', m)
    {
      assert MessageInv(cfg, db, m);
    }
    MessagesMayChange(cfg, db, messages);
  }

  lemma NewMessage(cfg: Config, db: Db, mid: nat, body: Message)
    requires DbInv(cfg, db) && mid !in db.messages && TargetStored(cfg, db, body)
    ensures
      var db' := db.(messages := db.messages[mid := QueueMessage(body, Queued)]);
      Evolves(db, db') && DbInv(cfg, db')
  {
    hide RowInv, Decode, UniqueRows, EventsUnique, DeploymentInv, EventOwned;
    var messages := db.messages[mid := QueueMessage(body, Queued)];
    var db' := db.(messages := messages);
    forall m | m in messages
      ensures MessageInv(cfg, db', m)
    {
      assert m != mid ==> MessageInv(cfg, db, m);
    }
    MessagesMayChange(cfg, db, messages);
  }

  lemma ReceivedIsFine(cfg: Config, s: State, db: Db, pid: nat, mid: nat)
    requires mid in db.messages
    ensures ProcInv(cfg, db, Received(mid)) && MayEnter(s, pid, Received(mid))
  {
  }

  lemma DeliverKeeps(cfg: Config, s: State, s': State, pid: nat, mid: nat)
    requires Inv(cfg, s) && Deliver(s, s', pid, mid)
    ensures Inv(cfg, s') && Evolves(s.db, s'.db)
  {
    hide Inv, ProcInv, MayEnter, HoldsNoMore, Evolves;
    Committed(cfg, s);
    MessageMoves(cfg, s.db, mid, InFlight(pid));
    ReceivedIsFine(cfg, s, s'.db, pid, mid);
    QuietStep(cfg, s, s'.db, pid, Received(mid));
  }

  lemma RedeliverKeeps(cfg: Config, s: State, s': State, mid: nat)
    requires Inv(cfg, s) && Redeliver(s, s', mid)
    ensures Inv(cfg, s') && Evolves(s.db, s'.db)
  {
    hide Inv, Evolves;
    Committed(cfg, s);
    MessageMoves(cfg, s.db, mid, Queued);
    QuietEnvironment(cfg, s, s'.db);
  }

  lemma AckingIsSafe(cfg: Config, db: Db, p: Proc)
    requires p.Acking? && ProcInv(cfg, db, p)
    ensures p.mid in db.messages && SafeToDrop(cfg, db, db.messages[p.mid].body)
  {
    hide SafeToDrop;
  }

  lemma HandledIsFine(cfg: Config, db: Db, mid: nat)
    ensures ProcInv(cfg, db, Handled(mid))
  {
  }

  lemma SettleKeeps(cfg: Config, s: State, s': State, pid: nat, reached: bool)
    requires Inv(cfg, s) && Settle(s, s', pid, reached)
    ensures Inv(cfg, s') && Evolves(s.db, s'.db)
  {
    hide Inv, ProcInv, Evolves, SafeToDrop;
    Local(cfg, s, pid);
    Committed(cfg, s);
    var mid := s.procs[pid].mid;
    if reached && s.db.messages[mid].state == InFlight(pid) {
      if s.procs[pid].Acking? {
        AckingIsSafe(cfg, s.db, s.procs[pid]);
        MessageMoves(cfg, s.db, mid, Acked);
      } else {
        MessageMoves(cfg, s.db, mid, Queued);
      }
    } else {
      EvolvesReflexive(s.db);
      assert s'.db == s.db;
    }
    HandledIsFine(cfg, s'.db, mid);
    QuietRelease(cfg, s, s'.db, pid, Handled(mid));
  }

  lemma ForeignPublishKeeps(cfg: Config, s: State, s': State, mid: nat, body: Message)
    requires Inv(cfg, s) && ForeignPublish(cfg, s, s', mid, body)
    ensures Inv(cfg, s') && Evolves(s.db, s'.db)
  {
    hide Inv, Evolves, TargetStored;
    Committed(cfg, s);
    NewMessage(cfg, s.db, mid, body);
    QuietEnvironment(cfg, s, s'.db);
  }

  /** What Create publishes for a stored row points at that row. */
  lemma PublishedTargetStored(cfg: Config, db: Db, row: Campaign, wallet: string, chainId: int)
    requires row.id in db.campaigns
    ensures TargetStored(cfg, db, Encode(TaskFor(row, wallet, chainId)))
  {
    hide Decode, Encode, Encodable;
    DecodeEncode(TaskFor(row, wallet, chainId));
  }

  lemma PublishingIsStored(cfg: Config, db: Db, p: Proc)
    requires p.Publishing? && ProcInv(cfg, db, p)
    ensures p.row.id in db.campaigns
  {
    hide FromInput, SameCreationFields;
  }

  /** A copy of a stored row stays one while campaigns stay put. */
  lemma StoredCopyIsFine(cfg: Config, db: Db, db': Db, p: Proc, p': Proc)
    requires (p.Discarding? && p'.Publishing?) || (p.Publishing? && p'.Created?)
    requires p'.row == p.row && p'.input == p.input
    requires ProcInv(cfg, db, p) && db'.campaigns == db.campaigns
    ensures ProcInv(cfg, db', p')
  {
    hide FromInput, SameCreationFields;
  }

  lemma DiscardedWasPromoted(cfg: Config, db: Db, input: CreateCampaignInput, row: Campaign)
    requires ProcInv(cfg, db, Discarding(input, row))
    ensures Canonical(input.imageObjectKey, Campaigns).Some?
  {
    hide Canonical, SameCreationFields, SameCreationPayload, Text.TrimSpace;
  }

  lemma PublishKeeps(cfg: Config, s: State, s': State, pid: nat, mid: nat, accepted: bool, confirmed: bool)
    requires Inv(cfg, s) && Publish(cfg, s, s', pid, mid, accepted, confirmed)
    ensures Inv(cfg, s') && Evolves(s.db, s'.db)
  {
    hide Inv, ProcInv, Evolves, TargetStored, Encode, Text.TrimSpace, NeedsDeployment;
    Local(cfg, s, pid);
    Committed(cfg, s);
    var Publishing(input, row) := s.procs[pid];
    var wallet := Text.TrimSpace(input.walletAddress);
    if NeedsDeployment(row) && cfg.apiChainId > 0 && accepted {
      PublishingIsStored(cfg, s.db, s.procs[pid]);
      PublishedTargetStored(cfg, s.db, row, wallet, cfg.apiChainId);
      NewMessage(cfg, s.db, mid, Encode(TaskFor(row, wallet, cfg.apiChainId)));
    } else {
      EvolvesReflexive(s.db);
      assert s'.db == s.db;
    }
    if s'.procs[pid].Created? {
      StoredCopyIsFine(cfg, s.db, s'.db, s.procs[pid], s'.procs[pid]);
    } else {
      FailedCreateIsFine(cfg, s'.db, input);
    }
    QuietRelease(cfg, s, s'.db, pid, s'.procs[pid]);
  }

  // ---- Deployments and users ----

  lemma DeploymentMade(cfg: Config, db: Db, d: (UUID, DeploymentResult))
    requires DbInv(cfg, db) && DeploymentInv(cfg, d)
    ensures
      var db' := db.(deployments := db.deployments + {d});
      Evolves(db, db') && DbInv(cfg, db')
  {
    hide RowInv, Decode, UniqueRows, EventsUnique, DeploymentInv, EventOwned, Text.HasPrefix;
    var db' := db.(deployments := db.deployments + {d});
    forall m | m in db'.messages
      ensures MessageInv(cfg, db', m)
    {
      assert MessageInv(cfg, db, m);
      MessageKept(cfg, db, db', m);
    }
    TablesKept(cfg, db, db');
  }

  lemma AfterDeploy(cfg: Config, db: Db, db': Db, p: Proc, result: DeploymentResult)
    requires p.Deploying? && ProcInv(cfg, db, p)
    requires db' == db.(deployments := db.deployments + {(p.task.campaignId, result)})
    ensures ProcInv(cfg, db', Deployed(p.mid, p.task, result)) && ProcInv(cfg, db', Nacking(p.mid))
  {
    hide Decode;
  }

  lemma DeployContractKeeps(cfg: Config, s: State, s': State, pid: nat, result: DeploymentResult, seen: bool)
    requires Inv(cfg, s) && DeployContract(cfg, s, s', pid, result, seen)
    ensures Inv(cfg, s') && Evolves(s.db, s'.db)
  {
    hide Inv, ProcInv, Evolves, StubDeployer.Deploy;
    Local(cfg, s, pid);
    Committed(cfg, s);
    DeploymentMade(cfg, s.db, (s.procs[pid].task.campaignId, result));
    AfterDeploy(cfg, s.db, s'.db, s.procs[pid], result);
    QuietRelease(cfg, s, s'.db, pid, s'.procs[pid]);
  }

  lemma RegisterUserKeeps(cfg: Config, s: State, s': State, id: UUID, user: User)
    requires Inv(cfg, s) && RegisterUser(s, s', id, user)
    ensures Inv(cfg, s') && Evolves(s.db, s'.db)
  {
    hide Separate, ProcInv, RowInv, Decode, UniqueRows, EventsUnique, DeploymentInv, EventOwned, Text.HasPrefix,
         EventKeyFree, AddressFree, UserLock, CampaignLock, NewCampaignId, NewEvent, NewAddress;
    forall m | m in s'.db.messages
      ensures MessageInv(cfg, s'.db, m)
    {
      assert MessageInv(cfg, s.db, m);
      MessageKept(cfg, s.db, s'.db, m);
    }
    TablesKept(cfg, s.db, s'.db);
    EnvironmentStep(cfg, s, s'.db);
  }

  // ---- The four commits and the indexer ----

  /** A new campaign row leaves every process that the commit excludes undisturbed. */
  lemma NewCampaignUndisturbed(db: Db, p: Proc, q: Proc)
    requires p.Inserted? && p.row.contractAddress.None? && !Exclusive(p, q)
    requires p.row.id !in db.campaigns
    requires CampaignLock(q).Some? ==> CampaignLock(q).value in db.campaigns
    ensures Undisturbed(db, db.(campaigns := db.campaigns[p.row.id := p.row]), q)
  {
    hide EventKeyFree, EventsCollide, CreationEvent, Text.TrimSpace;
  }

  /** Events and messages that the step did not touch stay good. */
  lemma EventsAndMessagesKept(cfg: Config, db: Db, db': Db)
    requires DbInv(cfg, db) && CampaignsEvolve(db.campaigns, db'.campaigns)
    requires forall e :: e in db.events ==> e in db'.events && db'.events[e] == db.events[e]
    requires db'.messages == db.messages
    ensures forall e :: e in db.events ==> EventOwned(db', e)
    ensures forall mid :: mid in db'.messages ==> MessageInv(cfg, db', mid)
  {
    hide EventOwned, MessageInv, RowInv, CampaignsEvolve, UniqueRows, EventsUnique;
    forall e | e in db.events
      ensures EventOwned(db', e)
    {
      assert EventOwned(db, e);
      EventKept(db, db', e);
    }
    forall mid | mid in db'.messages
      ensures MessageInv(cfg, db', mid)
    {
      assert MessageInv(cfg, db, mid);
      MessageKept(cfg, db, db', mid);
    }
  }

  /** Rows other than c, when only c changed. */
  lemma OtherRowsKept(cfg: Config, db: Db, db': Db, c: UUID)
    requires DbInv(cfg, db) && Evolves(db, db')
    requires db'.users == db.users
    requires forall d :: d in db'.campaigns && d != c ==> d in db.campaigns && db'.campaigns[d] == db.campaigns[d]
    ensures forall d :: d in db'.campaigns && d != c ==> RowInv(db', d)
  {
    hide EventOwned, MessageInv, RowInv, Evolves, UniqueRows, EventsUnique;
    forall d | d in db'.campaigns && d != c
      ensures RowInv(db', d)
    {
      assert RowInv(db, d);
      RowKept(db, db', d) by { OwnerStored(db, d); }
    }
  }

  /** A row that may enter the campaigns table. */
  predicate Insertable(db: Db, row: Campaign) {
    && row.id !in db.campaigns
    && row.goalAmount > 0
    && row.imageObjectKey in db.objects && Text.HasPrefix(row.imageObjectKey, "campaigns/")
    && LiveFundraiser(db, row.fundraiserId)
    && row.status == Pending && row.eventId.None? && row.contractAddress.None?
    && !KeyTaken(db.campaigns, row.fundraiserId, row.idempotencyKey)
  }

  lemma NewCampaignIsUnique(campaigns: map<UUID, Campaign>, row: Campaign)
    requires UniqueRows(campaigns) && row.id !in campaigns
    requires row.eventId.None? && row.contractAddress.None?
    requires !KeyTaken(campaigns, row.fundraiserId, row.idempotencyKey)
    ensures UniqueRows(campaigns[row.id := row])
  {
  }

  lemma NewCampaignEvolves(db: Db, row: Campaign)
    requires row.id !in db.campaigns
    ensures Evolves(db, db.(campaigns := db.campaigns[row.id := row]))
  {
    hide Text.HasPrefix;
  }

  lemma NewCampaignInTables(cfg: Config, db: Db, row: Campaign)
    requires DbInv(cfg, db) && Insertable(db, row)
    ensures DbInv(cfg, db.(campaigns := db.campaigns[row.id := row]))
  {
    hide MessageInv, EventOwned, UniqueRows, EventsUnique, Evolves, Text.HasPrefix, KeyTaken, DeploymentInv;
    var db' := db.(campaigns := db.campaigns[row.id := row]);
    NewCampaignEvolves(db, row);
    NewCampaignIsUnique(db.campaigns, row);
    assert CampaignsEvolve(db.campaigns, db'.campaigns);
    EventsAndMessagesKept(cfg, db, db');
    OtherRowsKept(cfg, db, db', row.id);
    assert RowInv(db', row.id);
  }

  lemma CommitCreateKeeps(cfg: Config, s: State, s': State, pid: nat, seen: bool)
    requires Inv(cfg, s) && CommitCreate(s, s', pid, seen)
    ensures Inv(cfg, s') && Evolves(s.db, s'.db)
  {
    hide DbInv, ProcInv, Evolves, Undisturbed, Exclusive, Insertable;
    var p := s.procs[pid];
    Local(cfg, s, pid);
    InsertedIsInsertable(cfg, s.db, p);
    NewCampaignEvolves(s.db, p.row);
    NewCampaignInTables(cfg, s.db, p.row);
    forall q | q in s.procs && q != pid
      ensures Undisturbed(s.db, s'.db, s.procs[q])
    {
      Local(cfg, s, q);
      if CampaignLock(s.procs[q]).Some? {
        LockedCampaignIsStored(cfg, s.db, s.procs[q]);
      }
      NewCampaignUndisturbed(s.db, p, s.procs[q]);
    }
    AfterCommitCreate(cfg, s.db, p);
    SharedRelease(cfg, s, s'.db, pid, s'.procs[pid]);
  }

  lemma InsertedIsInsertable(cfg: Config, db: Db, p: Proc)
    requires p.Inserted? && ProcInv(cfg, db, p)
    ensures Insertable(db, p.row) && p.row.contractAddress.None? && p.row.id !in db.campaigns
    ensures p.minimumEndAt <= p.row.endAt
  {
    hide FromInput, Text.HasPrefix, KeyTaken, LiveFundraiser;
  }

  lemma LockedCampaignIsStored(cfg: Config, db: Db, q: Proc)
    requires ProcInv(cfg, db, q) && CampaignLock(q).Some?
    ensures CampaignLock(q).value in db.campaigns && db.campaigns[CampaignLock(q).value].status == Pending
  {
    hide Decode, Text.TrimSpace, EventKeyFree, AddressFree;
  }

  lemma AfterCommitCreate(cfg: Config, db: Db, p: Proc)
    requires p.Inserted? && ProcInv(cfg, db, p)
    ensures ProcInv(cfg, db.(campaigns := db.campaigns[p.row.id := p.row]), Discarding(p.input, p.row))
    ensures ProcInv(cfg, db.(campaigns := db.campaigns[p.row.id := p.row]), CreateFailed(p.input))
  {
    hide FromInput, Text.HasPrefix, KeyTaken, LiveFundraiser;
  }

  lemma SharedRelease(cfg: Config, s: State, db': Db, pid: nat, p: Proc)
    requires Inv(cfg, s) && Evolves(s.db, db') && DbInv(cfg, db') && ProcInv(cfg, db', p)
    requires pid in s.procs && HoldsNothing(p)
    requires forall q :: q in s.procs && q != pid ==> Undisturbed(s.db, db', s.procs[q])
    ensures Inv(cfg, To(s, pid, p).(db := db'))
  {
    hide Inv, DbInv, ProcInv, Evolves, Undisturbed, MayEnter, UserLock, CampaignLock, NewCampaignId, NewEvent, NewAddress;
    SharedStep(cfg, s, db', pid, p);
  }

  // ---- Soft deletion of a fundraiser ----

  function WithDeleted(db: Db, f: UUID): Db
    requires f in db.users
  {
    db.(users := db.users[f := db.users[f].(deleted := true)])
  }

  lemma DeletionInTables(cfg: Config, db: Db, f: UUID)
    requires DbInv(cfg, db) && f in db.users && !OwnsUndeletable(db.campaigns, f)
    ensures Evolves(db, WithDeleted(db, f)) && DbInv(cfg, WithDeleted(db, f))
  {
    hide MessageInv, EventOwned, UniqueRows, EventsUnique, Text.HasPrefix, DeploymentInv, Text.TrimSpace;
    var db' := WithDeleted(db, f);
    EventsAndMessagesKept(cfg, db, db');
    forall c | c in db'.campaigns
      ensures RowInv(db', c)
    {
      assert RowInv(db, c);
      RowOfDeleted(db, f, c);
    }
  }

  lemma RowOfDeleted(db: Db, f: UUID, c: UUID)
    requires f in db.users && !OwnsUndeletable(db.campaigns, f)
    requires c in db.campaigns && RowInv(db, c)
    ensures RowInv(WithDeleted(db, f), c)
  {
    hide Text.HasPrefix, Text.TrimSpace;
    if db.campaigns[c].eventId.Some? {
      var result :| (c, result) in db.deployments && RecordedFrom(db, c, result);
      assert RecordedFrom(WithDeleted(db, f), c, result);
    }
  }

  lemma DeletionUndisturbed(db: Db, f: UUID, q: Proc)
    requires f in db.users && UserLock(q) != Some(f)
    ensures Undisturbed(db, WithDeleted(db, f), q)
  {
    hide EventKeyFree, AddressFree, UserLock, CampaignLock, NewCampaignId, NewEvent, NewAddress;
  }

  lemma CommitDeleteKeeps(cfg: Config, s: State, s': State, pid: nat)
    requires Inv(cfg, s) && CommitDelete(s, s', pid)
    ensures Inv(cfg, s') && Evolves(s.db, s'.db)
  {
    hide DbInv, ProcInv, Evolves, Undisturbed, OwnsUndeletable;
    var f := s.procs[pid].fundraiserId;
    Local(cfg, s, pid);
    ClearedOwnsNothing(cfg, s.db, s.procs[pid]);
    DeletionInTables(cfg, s.db, f);
    forall q | q in s.procs && q != pid
      ensures Undisturbed(s.db, s'.db, s.procs[q])
    {
      assert !Exclusive(s.procs[pid], s.procs[q]);
      DeletionUndisturbed(s.db, f, s.procs[q]);
    }
    SharedRelease(cfg, s, s'.db, pid, DeleteDone(f));
  }

  lemma ClearedOwnsNothing(cfg: Config, db: Db, p: Proc)
    requires p.DeleteCleared? && ProcInv(cfg, db, p)
    ensures !OwnsUndeletable(db.campaigns, p.fundraiserId)
    ensures forall db' :: ProcInv(cfg, db', DeleteDone(p.fundraiserId))
  {
    hide OwnsUndeletable;
  }

  // ---- Activation ----

  function WithActivation(db: Db, c: UUID, eventId: UUID, result: DeploymentResult): Db
    requires c in db.campaigns
  {
    db.(campaigns := db.campaigns[c := Activated(db.campaigns[c], eventId, result)],
        events := db.events[eventId := CreationEvent(result)])
  }

  /** What the locked transaction knows when it commits. */
  predicate Activatable(db: Db, c: UUID, eventId: UUID, result: DeploymentResult) {
    && c in db.campaigns && db.campaigns[c].status == Pending
    && (c, result) in db.deployments
    && CompletionArgumentsValid(eventId, result)
    && EventKeyFree(db.events, eventId, CreationEvent(result))
    && AddressFree(db.campaigns, c, Text.TrimSpace(result.contractAddress))
  }

  lemma ActivationEvolves(db: Db, c: UUID, eventId: UUID, result: DeploymentResult)
    requires Activatable(db, c, eventId, result) && RowInv(db, c)
    ensures Evolves(db, WithActivation(db, c, eventId, result))
  {
    hide Text.HasPrefix, Text.TrimSpace, CompletionArgumentsValid, AddressFree, CreationEvent;
  }

  lemma ActivatedRow(db: Db, c: UUID, eventId: UUID, result: DeploymentResult)
    requires Activatable(db, c, eventId, result) && RowInv(db, c)
    ensures RowInv(WithActivation(db, c, eventId, result), c)
  {
    hide Text.HasPrefix, Text.TrimSpace, AddressFree, EventKeyFree;
    assert RecordedFrom(WithActivation(db, c, eventId, result), c, result);
  }

  lemma ActivationKeepsUnique(cfg: Config, db: Db, c: UUID, eventId: UUID, result: DeploymentResult)
    requires DbInv(cfg, db) && Activatable(db, c, eventId, result)
    ensures UniqueRows(WithActivation(db, c, eventId, result).campaigns)
    ensures EventsUnique(WithActivation(db, c, eventId, result).events)
  {
    hide Text.HasPrefix, Text.TrimSpace, CompletionArgumentsValid, CreationEvent, MessageInv, EventOwned, DeploymentInv;
    forall d | d in db.campaigns
      ensures db.campaigns[d].eventId != Some(eventId)
    {
      assert RowInv(db, d);
    }
  }

  lemma ActivationInTables(cfg: Config, db: Db, c: UUID, eventId: UUID, result: DeploymentResult)
    requires DbInv(cfg, db) && Activatable(db, c, eventId, result)
    ensures DbInv(cfg, WithActivation(db, c, eventId, result))
  {
    hide MessageInv, UniqueRows, EventsUnique, Evolves, RowInv, DeploymentInv, Text.TrimSpace, CompletionArgumentsValid,
         EventKeyFree, AddressFree, CampaignsEvolve;
    var db' := WithActivation(db, c, eventId, result);
    assert RowInv(db, c);
    ActivationEvolves(db, c, eventId, result);
    ActivatedRow(db, c, eventId, result);
    ActivationKeepsUnique(cfg, db, c, eventId, result);
    EvolvesParts(db, db');
    EventIsNew(db, c, eventId, result);
    EventsAndMessagesKept(cfg, db, db');
    OtherRowsKept(cfg, db, db', c);
    assert db'.campaigns[c].eventId == Some(eventId);
  }

  lemma EventIsNew(db: Db, c: UUID, eventId: UUID, result: DeploymentResult)
    requires Activatable(db, c, eventId, result)
    ensures eventId !in db.events
  {
    hide Text.TrimSpace, CompletionArgumentsValid, AddressFree;
  }

  lemma EvolvesParts(db: Db, db': Db)
    requires Evolves(db, db')
    ensures CampaignsEvolve(db.campaigns, db'.campaigns)
    ensures forall e :: e in db.events ==> e in db'.events && db'.events[e] == db.events[e]
  {
    hide CampaignsEvolve, UserEvolves, Text.HasPrefix;
  }

  /** What keeps q out of the way of an activation: another campaign, another event, another address. */
  predicate ClearOf(c: UUID, eventId: UUID, result: DeploymentResult, q: Proc) {
    && CampaignLock(q) != Some(c)
    && (NewEvent(q).Some? ==> !EventsCollide((eventId, CreationEvent(result)), NewEvent(q).value))
    && NewAddress(q) != Some(Text.TrimSpace(result.contractAddress))
  }

  lemma ExclusionClears(p: Proc, q: Proc)
    requires p.RowWritten? && !Exclusive(p, q)
    ensures ClearOf(p.task.campaignId, p.eventId, p.result, q)
  {
    hide Text.TrimSpace, CreationEvent, EventsCollide;
  }

  lemma ActivationUndisturbed(db: Db, c: UUID, eventId: UUID, result: DeploymentResult, q: Proc)
    requires c in db.campaigns && ClearOf(c, eventId, result, q)
    ensures Undisturbed(db, WithActivation(db, c, eventId, result), q)
  {
    hide Text.TrimSpace, CreationEvent, UserLock, CampaignLock, NewCampaignId, NewEvent, NewAddress;
  }

  lemma RowWrittenIsActivatable(cfg: Config, db: Db, p: Proc)
    requires p.RowWritten? && ProcInv(cfg, db, p)
    ensures Activatable(db, p.task.campaignId, p.eventId, p.result) && p.mid in db.messages
    ensures Reading(cfg, db, p.mid, p.task)
  {
    hide Decode, Text.TrimSpace, CompletionArgumentsValid, AddressFree, EventKeyFree;
  }

  lemma AfterActivation(cfg: Config, db: Db, p: Proc)
    requires p.RowWritten? && Reading(cfg, db, p.mid, p.task)
    ensures ProcInv(cfg, WithActivation(db, p.task.campaignId, p.eventId, p.result), Acking(p.mid))
    ensures ProcInv(cfg, WithActivation(db, p.task.campaignId, p.eventId, p.result), Nacking(p.mid))
  {
    hide Decode, Text.TrimSpace;
  }

  lemma CommitDeploymentKeeps(cfg: Config, s: State, s': State, pid: nat, seen: bool)
    requires Inv(cfg, s) && CommitDeployment(s, s', pid, seen)
    ensures Inv(cfg, s') && Evolves(s.db, s'.db)
  {
    hide Inv, DbInv, ProcInv, Evolves, Undisturbed, Activatable, Exclusive, Activated, CreationEvent, Reading, RowInv;
    var p := s.procs[pid];
    var c := p.task.campaignId;
    Local(cfg, s, pid);
    Committed(cfg, s);
    StoredCampaign(cfg, s, c);
    RowWrittenIsActivatable(cfg, s.db, p);
    ActivationEvolves(s.db, c, p.eventId, p.result);
    ActivationInTables(cfg, s.db, c, p.eventId, p.result);
    forall q | q in s.procs && q != pid
      ensures Undisturbed(s.db, s'.db, s.procs[q])
    {
      Apart(cfg, s, pid, q);
      ExclusionClears(p, s.procs[q]);
      ActivationUndisturbed(s.db, c, p.eventId, p.result, s.procs[q]);
    }
    AfterActivation(cfg, s.db, p);
    SharedRelease(cfg, s, s'.db, pid, s'.procs[pid]);
  }

  lemma Apart(cfg: Config, s: State, p: nat, q: nat)
    requires Inv(cfg, s) && p in s.procs && q in s.procs && p != q
    ensures !Exclusive(s.procs[p], s.procs[q])
  {
    hide DbInv, ProcInv, Exclusive;
  }

  // ---- The indexer ----

  /** A row the indexer may put in place of another. */
  predicate Updatable(before: Campaign, row: Campaign) {
    && SameCreationFields(before, row)
    && row.eventId == before.eventId && row.contractAddress == before.contractAddress
    && (row.status == before.status || row.status in {Completed, Cancelled, Failed})
    && LiveChainDataCheck(row)
  }

  lemma UpdateEvolves(db: Db, c: UUID, row: Campaign)
    requires c in db.campaigns && Updatable(db.campaigns[c], row)
    ensures Evolves(db, db.(campaigns := db.campaigns[c := row]))
  {
    hide Text.HasPrefix, LiveChainDataCheck;
  }

  lemma UpdatedRow(db: Db, c: UUID, row: Campaign)
    requires c in db.campaigns && RowInv(db, c) && Updatable(db.campaigns[c], row)
    ensures RowInv(db.(campaigns := db.campaigns[c := row]), c)
  {
    hide Text.HasPrefix, Text.TrimSpace;
    if row.eventId.Some? {
      var result :| (c, result) in db.deployments && RecordedFrom(db, c, result);
      assert RecordedFrom(db.(campaigns := db.campaigns[c := row]), c, result);
    }
  }

  lemma UpdateKeepsUnique(campaigns: map<UUID, Campaign>, c: UUID, row: Campaign)
    requires UniqueRows(campaigns) && c in campaigns && Updatable(campaigns[c], row)
    ensures UniqueRows(campaigns[c := row])
  {
    hide LiveChainDataCheck, SameCreationPayload;
  }

  lemma ExternalUpdateInTables(cfg: Config, db: Db, c: UUID, row: Campaign)
    requires DbInv(cfg, db) && c in db.campaigns && Updatable(db.campaigns[c], row)
    ensures DbInv(cfg, db.(campaigns := db.campaigns[c := row]))
  {
    hide MessageInv, EventOwned, EventsUnique, UniqueRows, DeploymentInv, RowInv, Evolves, Updatable, CampaignsEvolve;
    var db' := db.(campaigns := db.campaigns[c := row]);
    assert RowInv(db, c);
    UpdateEvolves(db, c, row);
    EvolvesParts(db, db');
    UpdatedRow(db, c, row);
    UpdateKeepsUnique(db.campaigns, c, row);
    EventsAndMessagesKept(cfg, db, db');
    OtherRowsKept(cfg, db, db', c);
  }

  lemma ExternalUpdateUndisturbed(db: Db, c: UUID, row: Campaign, q: Proc)
    requires c in db.campaigns && CampaignLock(q) != Some(c)
    requires SameCreationFields(db.campaigns[c], row) && row.contractAddress == db.campaigns[c].contractAddress
    ensures Undisturbed(db, db.(campaigns := db.campaigns[c := row]), q)
  {
    hide EventKeyFree, UserLock, CampaignLock, NewCampaignId, NewEvent, NewAddress;
  }

  lemma ExternalUpdateKeeps(cfg: Config, s: State, s': State, c: UUID, row: Campaign)
    requires Inv(cfg, s) && ExternalUpdate(s, s', c, row)
    ensures Inv(cfg, s') && Evolves(s.db, s'.db)
  {
    hide Inv, DbInv, Evolves, Undisturbed, LiveChainDataCheck, SameCreationFields;
    Committed(cfg, s);
    assert Updatable(s.db.campaigns[c], row);
    UpdateEvolves(s.db, c, row);
    ExternalUpdateInTables(cfg, s.db, c, row);
    forall q | q in s.procs
      ensures Undisturbed(s.db, s'.db, s.procs[q])
    {
      ExternalUpdateUndisturbed(s.db, c, row, s.procs[q]);
    }
    EnvironmentStep(cfg, s, s'.db);
  }

  lemma ExternalEventInTables(cfg: Config, db: Db, e: UUID, event: BlockchainEvent)
    requires DbInv(cfg, db) && event.kind != CampaignCreated && EventKeyFree(db.events, e, event)
    ensures
      var db' := db.(events := db.events[e := event]);
      Evolves(db, db') && DbInv(cfg, db')
  {
    hide MessageInv, Text.HasPrefix, DeploymentInv, Text.TrimSpace, UniqueRows, RowInv;
    var db' := db.(events := db.events[e := event]);
    EventsAndMessagesKept(cfg, db, db');
    forall c | c in db'.campaigns
      ensures RowInv(db', c)
    {
      assert RowInv(db, c);
      RowKept(db, db', c) by { OwnerStored(db, c); }
    }
  }

  lemma ExternalEventUndisturbed(db: Db, e: UUID, event: BlockchainEvent, q: Proc)
    requires NewEvent(q).Some? ==> !EventsCollide((e, event), NewEvent(q).value)
    ensures Undisturbed(db, db.(events := db.events[e := event]), q)
  {
    hide AddressFree, UserLock, CampaignLock, NewCampaignId, NewEvent, NewAddress;
  }

  lemma ExternalEventKeeps(cfg: Config, s: State, s': State, e: UUID, event: BlockchainEvent)
    requires Inv(cfg, s) && ExternalEvent(s, s', e, event)
    ensures Inv(cfg, s') && Evolves(s.db, s'.db)
  {
    hide Inv, DbInv, Evolves, Undisturbed, EventKeyFree, EventsCollide;
    Committed(cfg, s);
    ExternalEventInTables(cfg, s.db, e, event);
    forall q | q in s.procs
      ensures Undisturbed(s.db, s'.db, s.procs[q])
    {
      ExternalEventUndisturbed(s.db, e, event, s.procs[q]);
    }
    EnvironmentStep(cfg, s, s'.db);
  }
}
