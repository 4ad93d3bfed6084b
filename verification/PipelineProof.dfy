/** Every step of the deployment pipeline preserves the invariant. */
module PipelineProof {
  import opened Options
  import opened Uuid
  import opened Timestamp
  import opened Domain
  import opened ObjectKeys
  import opened CampaignRules
  import opened DeploymentCodec
  import opened Pipeline
  import opened PipelineInvariant
  import Text

  // ---- Process-only steps ----

  /** p holds nothing that q does not hold. */
  predicate HoldsNoMore(p: Proc, q: Proc) {
    && (UserLock(p).None? || UserLock(p) == UserLock(q))
    && (CampaignLock(p).None? || CampaignLock(p) == CampaignLock(q))
    && (NewCampaignId(p).None? || NewCampaignId(p) == NewCampaignId(q))
    && (NewEvent(p).None? || NewEvent(p) == NewEvent(q))
    && (NewAddress(p).None? || NewAddress(p) == NewAddress(q))
  }

  lemma SeparateAfter(s: State, pid: nat, p: Proc)
    requires Separate(s.procs)
    requires MayEnter(s, pid, p) || (pid in s.procs && HoldsNoMore(p, s.procs[pid]))
    ensures Separate(s.procs[pid := p])
  {
    hide UserLock, CampaignLock, NewCampaignId, NewEvent, NewAddress, SameLog;
    var after := s.procs[pid := p];
    forall a, b | a in after && b in after && a != b
      ensures !Exclusive(after[a], after[b])
    {
      if a == pid {
        assert b in s.procs;
      } else if b == pid {
        assert a in s.procs;
        SymmetricExclusion(after[a], after[b]);
      }
    }
  }

  lemma SymmetricExclusion(p: Proc, q: Proc)
    ensures Exclusive(p, q) == Exclusive(q, p)
  {
    hide UserLock, CampaignLock, NewCampaignId, NewEvent, NewAddress;
  }

  /** A step that changes one process and nothing else, taking no lock. */
  lemma ProcessMoves(cfg: Config, s: State, pid: nat, p: Proc)
    requires Inv(cfg, s) && ProcInv(cfg, s.db, p)
    requires pid in s.procs && HoldsNoMore(p, s.procs[pid])
    ensures Inv(cfg, To(s, pid, p))
  {
    hide DbInv, ProcInv, Separate, MayEnter, HoldsNoMore;
    SeparateAfter(s, pid, p);
  }

  predicate HoldsNothing(p: Proc) {
    UserLock(p).None? && CampaignLock(p).None? && NewCampaignId(p).None? && NewEvent(p).None? && NewAddress(p).None?
  }

  /** A step that changes one process and nothing else, leaving it without locks or uncommitted writes. */
  lemma ProcessReleases(cfg: Config, s: State, pid: nat, p: Proc)
    requires Inv(cfg, s) && ProcInv(cfg, s.db, p)
    requires pid in s.procs && HoldsNothing(p)
    ensures Inv(cfg, To(s, pid, p))
  {
    hide Inv, ProcInv, UserLock, CampaignLock, NewCampaignId, NewEvent, NewAddress;
    ProcessMoves(cfg, s, pid, p);
  }

  /** A step that changes one process and nothing else, taking locks that are free. */
  lemma ProcessEnters(cfg: Config, s: State, pid: nat, p: Proc)
    requires Inv(cfg, s) && ProcInv(cfg, s.db, p)
    requires MayEnter(s, pid, p)
    ensures Inv(cfg, To(s, pid, p))
  {
    hide DbInv, ProcInv, Separate, MayEnter, HoldsNoMore;
    SeparateAfter(s, pid, p);
  }

  /** A step that changes the shared data and one process: the data must stay good, and so must
      every other process, which is kept apart from the moving one. */
  lemma EverythingMoves(cfg: Config, s: State, pid: nat, p: Proc, db: Db)
    requires Inv(cfg, s) && DbInv(cfg, db) && ProcInv(cfg, db, p)
    requires MayEnter(s, pid, p) || (pid in s.procs && HoldsNoMore(p, s.procs[pid]))
    requires forall q :: q in s.procs && q != pid ==> ProcInv(cfg, db, s.procs[q])
    ensures Inv(cfg, To(s, pid, p).(db := db))
  {
    hide DbInv, ProcInv, Separate, MayEnter, HoldsNoMore;
    SeparateAfter(s, pid, p);
  }

  // ---- Parts of the invariant ----

  lemma Local(cfg: Config, s: State, pid: nat)
    requires Inv(cfg, s) && pid in s.procs
    ensures ProcInv(cfg, s.db, s.procs[pid])
  {
    hide ProcInv, DbInv, Separate;
  }

  lemma StoredCampaign(cfg: Config, s: State, c: UUID)
    requires Inv(cfg, s) && c in s.db.campaigns
    ensures RowInv(s.db, c)
  {
    hide ProcInv, Separate, RowInv;
  }

  lemma StoredMessage(cfg: Config, s: State, mid: nat)
    requires Inv(cfg, s) && mid in s.db.messages
    ensures MessageInv(cfg, s.db, mid)
  {
    hide ProcInv, Separate, RowInv, MessageInv;
  }

  // ---- CampaignService.Create ----

  lemma BeginCreateKeeps(cfg: Config, s: State, s': State, pid: nat, input: CreateCampaignInput, id: UUID)
    requires Inv(cfg, s) && BeginCreate(s, s', pid, input, id)
    ensures Inv(cfg, s')
  {
    hide Inv, Canonical;
    ProcessEnters(cfg, s, pid, s'.procs[pid]);
  }

  lemma RequestIsNewRow(cfg: Config, db: Db, input: CreateCampaignInput, id: UUID, now: Instant)
    requires Canonical(input.imageObjectKey, Campaigns).Some?
    requires Canonical(input.imageObjectKey, Campaigns).value in db.objects
    requires id !in db.campaigns
    ensures ProcInv(cfg, db, RequestAt(input, id, now))
    ensures RequestAt(input, id, now).request.id == id
  {
    hide Canonical, Text.TrimSpace;
    CanonicalLeavesStaging(input.imageObjectKey, Campaigns);
  }

  lemma StatImageKeeps(cfg: Config, s: State, s': State, pid: nat, now: Instant)
    requires Inv(cfg, s) && StatImage(s, s', pid, now)
    ensures Inv(cfg, s')
  {
    hide Inv, Canonical, RequestedCampaign;
    var Promoting(input, id, _) := s.procs[pid];
    Local(cfg, s, pid);
    if Canonical(input.imageObjectKey, Campaigns).value in s.db.objects {
      RequestIsNewRow(cfg, s.db, input, id, now);
    }
    ProcessMoves(cfg, s, pid, s'.procs[pid]);
  }

  lemma LockFundraiserKeeps(cfg: Config, s: State, s': State, pid: nat, f: UUID)
    requires Inv(cfg, s) && LockFundraiser(s, s', pid, f)
    ensures Inv(cfg, s')
  {
    hide Inv, MayEnter, Canonical, Text.TrimSpace, Text.Lower;
    Local(cfg, s, pid);
    ProcessEnters(cfg, s, pid, s'.procs[pid]);
  }

  lemma LookupFoundKeeps(cfg: Config, s: State, s': State, pid: nat, c: UUID)
    requires Inv(cfg, s) && LookupFound(s, s', pid, c)
    ensures Inv(cfg, s')
  {
    hide Inv, Canonical, Text.TrimSpace;
    Local(cfg, s, pid);
    StoredCampaign(cfg, s, c);
    var CreateLocked(input, request, _) := s.procs[pid];
    FoundRow(input, request, s.db.campaigns[c]);
    ProcessMoves(cfg, s, pid, s'.procs[pid]);
  }

  lemma LookupNoneKeeps(cfg: Config, s: State, s': State, pid: nat)
    requires Inv(cfg, s) && LookupNone(s, s', pid)
    ensures Inv(cfg, s')
  {
    hide Inv, NewRow, KeyTaken;
    Local(cfg, s, pid);
    ProcessMoves(cfg, s, pid, s'.procs[pid]);
  }

  lemma InsertCampaignKeeps(cfg: Config, s: State, s': State, pid: nat, createdAt: Instant)
    requires Inv(cfg, s) && InsertCampaign(s, s', pid, createdAt)
    ensures Inv(cfg, s')
  {
    hide Inv, KeyTaken, NewRow;
    Local(cfg, s, pid);
    CreationTimeFree(s.db, s.procs[pid].input, s.procs[pid].request, createdAt);
    ProcessMoves(cfg, s, pid, s'.procs[pid]);
  }

  lemma CreationTimeFree(db: Db, input: CreateCampaignInput, row: Campaign, createdAt: Instant)
    requires NewRow(db, input, row)
    ensures NewRow(db, input, row.(createdAt := createdAt))
  {
    hide Canonical, Text.TrimSpace, Text.HasPrefix;
  }

  /** The branch after an insert that did nothing is unreachable. */
  lemma ResolveConflictNeverHappens(cfg: Config, s: State, s': State, pid: nat, c: UUID)
    requires Inv(cfg, s)
    ensures !ResolveConflict(s, s', pid, c)
  {
    hide Inv;
    if pid in s.procs {
      Local(cfg, s, pid);
    }
  }

  lemma CommitReplayKeeps(cfg: Config, s: State, s': State, pid: nat)
    requires Inv(cfg, s) && CommitReplay(s, s', pid)
    ensures Inv(cfg, s')
  {
    hide Inv, StoredRow;
    Local(cfg, s, pid);
    ProcessMoves(cfg, s, pid, s'.procs[pid]);
  }

  // ---- FundraiserService.DeleteProfile ----

  lemma BeginDeleteKeeps(cfg: Config, s: State, s': State, pid: nat, wallet: string)
    requires Inv(cfg, s) && BeginDelete(s, s', pid, wallet)
    ensures Inv(cfg, s')
  {
    hide Inv;
    ProcessEnters(cfg, s, pid, s'.procs[pid]);
  }

  lemma LockForDeleteKeeps(cfg: Config, s: State, s': State, pid: nat, f: UUID)
    requires Inv(cfg, s) && LockForDelete(s, s', pid, f)
    ensures Inv(cfg, s')
  {
    hide Inv, MayEnter, Text.TrimSpace, Text.Lower;
    ProcessEnters(cfg, s, pid, s'.procs[pid]);
  }

  lemma CheckForDeleteKeeps(cfg: Config, s: State, s': State, pid: nat)
    requires Inv(cfg, s) && CheckForDelete(s, s', pid)
    ensures Inv(cfg, s')
  {
    hide Inv, OwnsUndeletable;
    Local(cfg, s, pid);
    ProcessMoves(cfg, s, pid, s'.procs[pid]);
  }

  // ---- Worker reads ----

  lemma ReadTaskKeeps(cfg: Config, s: State, s': State, pid: nat)
    requires Inv(cfg, s) && ReadTask(cfg, s, s', pid)
    ensures Inv(cfg, s')
  {
    hide Decode, Inv;
    StoredMessage(cfg, s, s.procs[pid].mid);
    ProcessMoves(cfg, s, pid, s'.procs[pid]);
  }

  lemma LoadCampaignKeeps(cfg: Config, s: State, s': State, pid: nat)
    requires Inv(cfg, s) && LoadCampaign(s, s', pid)
    ensures Inv(cfg, s')
  {
    hide Decode, Inv, Text.TrimSpace;
    Local(cfg, s, pid);
    StoredCampaign(cfg, s, s.procs[pid].task.campaignId);
    ProcessMoves(cfg, s, pid, s'.procs[pid]);
  }

  lemma LockCampaignKeeps(cfg: Config, s: State, s': State, pid: nat, eventId: UUID)
    requires Inv(cfg, s) && LockCampaign(s, s', pid, eventId)
    ensures Inv(cfg, s')
  {
    hide Decode, Inv, MayEnter, CompletionArgumentsValid, HasAddress;
    Local(cfg, s, pid);
    if s'.procs[pid].Completing? {
      ProcessEnters(cfg, s, pid, s'.procs[pid]);
    } else {
      ProcessReleases(cfg, s, pid, s'.procs[pid]);
    }
  }

  lemma InsertEventKeeps(cfg: Config, s: State, s': State, pid: nat)
    requires Inv(cfg, s) && InsertEvent(s, s', pid)
    ensures Inv(cfg, s')
  {
    hide Decode, Inv, MayEnter, EventKeyFree, CompletionArgumentsValid;
    Local(cfg, s, pid);
    if s'.procs[pid].EventWritten? {
      ProcessEnters(cfg, s, pid, s'.procs[pid]);
    } else {
      ProcessReleases(cfg, s, pid, s'.procs[pid]);
    }
  }

  lemma UpdateCampaignKeeps(cfg: Config, s: State, s': State, pid: nat)
    requires Inv(cfg, s) && UpdateCampaign(s, s', pid)
    ensures Inv(cfg, s')
  {
    hide Decode, Inv, MayEnter, EventKeyFree, AddressFree, CompletionArgumentsValid, Text.TrimSpace, CreationEvent;
    Local(cfg, s, pid);
    if s'.procs[pid].RowWritten? {
      ProcessEnters(cfg, s, pid, s'.procs[pid]);
    } else {
      ProcessReleases(cfg, s, pid, s'.procs[pid]);
    }
  }

  lemma WorkerErrorKeeps(cfg: Config, s: State, s': State, pid: nat)
    requires Inv(cfg, s) && WorkerError(s, s', pid)
    ensures Inv(cfg, s')
  {
    hide Decode, Inv, ProcInv;
    Local(cfg, s, pid);
    HandlesStoredMessage(cfg, s.db, s.procs[pid]);
    ProcessReleases(cfg, s, pid, Nacking(s.procs[pid].mid));
  }

  predicate InHandler(p: Proc) {
    p.Received? || p.Loading? || p.Deploying? || p.Deployed? || p.Completing? || p.EventWritten? || p.RowWritten?
  }

  lemma HandlesStoredMessage(cfg: Config, db: Db, p: Proc)
    requires InHandler(p) && ProcInv(cfg, db, p)
    ensures p.mid in db.messages && ProcInv(cfg, db, Nacking(p.mid))
  {
    hide Decode, EventKeyFree, AddressFree, CompletionArgumentsValid, Text.TrimSpace;
  }

  lemma EndKeeps(cfg: Config, s: State, s': State, pid: nat)
    requires Inv(cfg, s)
    requires Crash(s, s', pid) || LockFundraiserNone(s, s', pid)
    ensures Inv(cfg, s')
  {
    hide Inv, MatchesFundraiser;
    ProcessReleases(cfg, s, pid, s'.procs[pid]);
  }
}
