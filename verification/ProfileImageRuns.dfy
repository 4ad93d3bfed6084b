/** Serial histories of profile requests: any keys, shared between rows and tables or submitted
    again, with any outside call failing. */
module ProfileImageRuns {
  import opened Options
  import opened Uuid
  import opened Domain
  import opened ObjectKeys
  import opened ProfileImages
  import Text

  datatype Request =
    | Register(id: UUID, role: UserRole, walletAddress: string, imageKey: Option<string>, answers: Answers)
    | Replace(role: UserRole, walletAddress: string, found: Option<UUID>, update: ImageUpdate, answers: Answers)
    | Delete(role: UserRole, walletAddress: string, found: Option<UUID>, ownsCampaigns: bool, answers: Answers)
      /** Uploads to staging, campaign images, expiry: whatever else uses the bucket. */
    | Elsewhere(objects: set<string>)

  ghost predicate Possible(s: State, r: Request) {
    match r
    case Register(_, _, _, _, _) => true
    case Replace(role, walletAddress, found, _, _) => SelectsProfile(s.rows, role, walletAddress, found)
    case Delete(role, walletAddress, found, _, _) => SelectsProfile(s.rows, role, walletAddress, found)
    case Elsewhere(objects) => forall key | Text.HasPrefix(key, "profiles/") :: key in s.objects <==> key in objects
  }

  ghost function Effect(s: State, r: Request): (State, Outcome)
    requires Possible(s, r)
  {
    match r
    case Register(id, role, walletAddress, imageKey, a) => RegisterCall(s, id, role, walletAddress, imageKey, a)
    case Replace(_, _, found, update, a) => ReplaceCall(s, found, update, a)
    case Delete(_, _, found, ownsCampaigns, a) => DeleteCall(s, found, ownsCampaigns, a)
    case Elsewhere(objects) => (s.(objects := objects), Succeeded)
  }

  ghost predicate IsRun(run: seq<State>, requests: seq<Request>) {
    && |run| == |requests| + 1
    && run[0].rows == map[]
    && forall i :: 0 <= i < |requests| ==> Possible(run[i], requests[i]) && Effect(run[i], requests[i]).0 == run[i + 1]
  }

  // ---- The invariant ----

  predicate RowInv(objects: set<string>, profile: Profile) {
    profile.image.Some? ==> !profile.deleted && ProfileKey(profile.image.value) && profile.image.value in objects
  }

  predicate Inv(s: State) {
    forall id :: id in s.rows ==> RowInv(s.objects, s.rows[id])
  }

  /** A promotion that succeeds yields an existing profile key, from a staging key; none loses objects. */
  lemma PromotionYieldsProfileKey(objects: set<string>, staging: Option<string>, answer: Answer)
    ensures
      var p := PromoteOptional(objects, staging, answer);
      && objects <= p.objects
      && (p.key.Ok? && p.key.value.Some? ==> ProfileKey(p.key.value.value) && p.key.value.value in p.objects)
      && (p.key.Ok? && staging.Some? ==> p.key.value.Some? && Text.HasPrefix(Text.TrimSpace(staging.value), "tmp/"))
      && (p.key.Ok? && staging.None? ==> p.key.value.None?)
  {
    hide Canonical, Text.TrimSpace;
    if staging.Some? && Canonical(staging.value, Profiles).Some? {
      CanonicalLeavesStaging(staging.value, Profiles);
    }
  }

  /** Discarding a staging object leaves every other name space alone. */
  lemma DiscardSparesOthers(objects: set<string>, staging: Option<string>, answer: Answer, key: string)
    requires staging.Some? ==> Text.HasPrefix(Text.TrimSpace(staging.value), "tmp/")
    requires key in objects && (Text.HasPrefix(key, "profiles/") || Text.HasPrefix(key, "campaigns/"))
    ensures key in RemoveOptional(objects, staging, answer)
  {
    hide Text.TrimSpace, Text.HasPrefix;
    NameSpacesDisjoint(key);
  }

  lemma RemovesExactly(objects: set<string>, doomed: Option<string>, answer: Answer)
    requires doomed.Some? ==> ProfileKey(doomed.value)
    ensures
      RemoveOptional(objects, doomed, answer)
      == if doomed.Some? && answer != Refused then objects - {doomed.value} else objects
  {
    hide Text.TrimSpace, Text.HasPrefix;
  }

  lemma RegisterKeeps(s: State, id: UUID, role: UserRole, walletAddress: string, imageKey: Option<string>, a: Answers)
    requires Inv(s)
    ensures Inv(RegisterCall(s, id, role, walletAddress, imageKey, a).0)
  {
    hide Text.TrimSpace, Text.HasPrefix, PromoteOptional, RemoveOptional;
    var staging := NormalizeOptional(imageKey);
    var promotion := PromoteOptional(s.objects, staging, a.promote);
    var after := RegisterCall(s, id, role, walletAddress, imageKey, a).0;
    PromotionYieldsProfileKey(s.objects, staging, a.promote);
    forall i | i in after.rows
      ensures RowInv(after.objects, after.rows[i])
    {
      if after.rows[i].image.Some? && promotion.key.Ok? {
        DiscardSparesOthers(promotion.objects, staging, a.discard, after.rows[i].image.value);
      }
    }
  }

  lemma ReplaceKeeps(s: State, found: Option<UUID>, update: ImageUpdate, a: Answers)
    requires Inv(s) && (found.Some? ==> found.value in s.rows && !s.rows[found.value].deleted)
    ensures Inv(ReplaceCall(s, found, update, a).0)
  {
    hide Text.TrimSpace, Text.HasPrefix, PromoteOptional, RemoveOptional;
    var staging := StagingOf(update);
    var promotion := PromoteOptional(s.objects, staging, a.promote);
    var after := ReplaceCall(s, found, update, a).0;
    PromotionYieldsProfileKey(s.objects, staging, a.promote);
    if found.Some? && promotion.key.Ok? && a.commit != Refused {
      var stored := ImageUpdate(update.isSet, promotion.key.value);
      var tidied := RemoveOptional(promotion.objects, staging, a.discard);
      var doomed := ReplacedKey(s.rows, found.value, stored);
      RemovesExactly(tidied, doomed, a.delete);
      forall i | i in after.rows
        ensures RowInv(after.objects, after.rows[i])
      {
        if after.rows[i].image.Some? {
          DiscardSparesOthers(promotion.objects, staging, a.discard, after.rows[i].image.value);
        }
      }
    }
  }

  lemma DeleteKeeps(s: State, found: Option<UUID>, ownsCampaigns: bool, a: Answers)
    requires Inv(s) && (found.Some? ==> found.value in s.rows)
    ensures Inv(DeleteCall(s, found, ownsCampaigns, a).0)
  {
    hide Text.TrimSpace, Text.HasPrefix, RemoveOptional;
    if found.Some? {
      RemovesExactly(s.objects, DeletedKey(s.rows, found.value), a.delete);
    }
  }

  lemma EffectKeeps(s: State, r: Request)
    requires Inv(s) && Possible(s, r)
    ensures Inv(Effect(s, r).0)
  {
    hide Text.TrimSpace, Text.HasPrefix, RegisterCall, ReplaceCall, DeleteCall;
    match r
    case Register(id, role, walletAddress, imageKey, a) => RegisterKeeps(s, id, role, walletAddress, imageKey, a);
    case Replace(_, _, found, update, a) => ReplaceKeeps(s, found, update, a);
    case Delete(_, _, found, ownsCampaigns, a) => DeleteKeeps(s, found, ownsCampaigns, a);
    case Elsewhere(_) =>
  }

  lemma {:induction false} InvOverRun(run: seq<State>, requests: seq<Request>, i: nat)
    requires IsRun(run, requests) && i < |run|
    ensures Inv(run[i])
  {
    hide Effect, Inv, Possible;
    if i == 0 {
      NoRows(run[0]);
    } else {
      InvOverRun(run, requests, i - 1);
      EffectKeeps(run[i - 1], requests[i - 1]);
    }
  }

  lemma NoRows(s: State)
    requires s.rows == map[]
    ensures Inv(s)
  {
  }

  // ---- What holds at every point of every serial run ----

  /** No profile row dangles, and a deleted row holds no image. */
  lemma NoProfileDangles(run: seq<State>, requests: seq<Request>, i: nat, id: UUID)
    requires IsRun(run, requests) && i < |run|
    requires id in run[i].rows && run[i].rows[id].image.Some?
    ensures !run[i].rows[id].deleted
    ensures run[i].rows[id].image.value in run[i].objects
    ensures Text.HasPrefix(run[i].rows[id].image.value, "profiles/")
  {
    hide IsRun, Text.TrimSpace, Text.HasPrefix;
    InvOverRun(run, requests, i);
    assert RowInv(run[i].objects, run[i].rows[id]);
  }

  lemma ChecksAgree(rows: map<UUID, Profile>, key: string)
    requires forall id :: id in rows && rows[id].image.Some? ==> !rows[id].deleted
    ensures Referenced(rows, key) <==> ReferencedByLive(rows, key)
  {
    if Referenced(rows, key) {
      var id :| id in rows && rows[id].image == Some(key);
      assert !rows[id].deleted;
    }
  }

  /** The check of ReplaceProfile, which looks at all rows, and the check of DeleteProfile, which
      skips deleted users, answer alike: on the committed rows and on the rows each transaction sees. */
  lemma ReferenceChecksAgree(run: seq<State>, requests: seq<Request>, i: nat, key: string)
    requires IsRun(run, requests) && i < |run|
    ensures Referenced(run[i].rows, key) <==> ReferencedByLive(run[i].rows, key)
    ensures forall id, update: ImageUpdate :: id in run[i].rows && !run[i].rows[id].deleted ==>
              (Referenced(ReplacedRows(run[i].rows, id, update), key)
               <==> ReferencedByLive(ReplacedRows(run[i].rows, id, update), key))
    ensures forall id :: id in run[i].rows ==>
              (Referenced(DeletedRows(run[i].rows, id), key) <==> ReferencedByLive(DeletedRows(run[i].rows, id), key))
  {
    hide IsRun, Text.TrimSpace, Text.HasPrefix, Referenced, ReferencedByLive;
    InvOverRun(run, requests, i);
    var rows := run[i].rows;
    assert forall id :: id in rows && rows[id].image.Some? ==> RowInv(run[i].objects, rows[id]);
    ChecksAgree(rows, key);
    forall id, update: ImageUpdate | id in rows && !rows[id].deleted
      ensures Referenced(ReplacedRows(rows, id, update), key) <==> ReferencedByLive(ReplacedRows(rows, id, update), key)
    {
      ChecksAgree(ReplacedRows(rows, id, update), key);
    }
    forall id | id in rows
      ensures Referenced(DeletedRows(rows, id), key) <==> ReferencedByLive(DeletedRows(rows, id), key)
    {
      ChecksAgree(DeletedRows(rows, id), key);
    }
  }

  /** A deleted row stays deleted, and no later query, whatever role and wallet it asks for, selects it. */
  lemma {:induction false} DeletedForGood(
    run: seq<State>, requests: seq<Request>, i: nat, j: nat, id: UUID, role: UserRole, walletAddress: string)
    requires IsRun(run, requests) && i <= j < |run| && id in run[i].rows && run[i].rows[id].deleted
    ensures id in run[j].rows && run[j].rows[id].deleted
    ensures !SelectsProfile(run[j].rows, role, walletAddress, Some(id))
    decreases j
  {
    hide Effect, Possible;
    if i < j {
      DeletedForGood(run, requests, i, j - 1, id, role, walletAddress);
      EffectKeepsDeleted(run[j - 1], requests[j - 1], id);
    }
  }

  lemma EffectKeepsDeleted(s: State, r: Request, id: UUID)
    requires Possible(s, r) && id in s.rows && s.rows[id].deleted
    ensures id in Effect(s, r).0.rows && Effect(s, r).0.rows[id].deleted
  {
    hide Text.TrimSpace, Text.HasPrefix, Text.Lower, PromoteOptional, RemoveOptional, ReplacedKey, DeletedKey, WalletUnused;
  }

  // ---- Orphans ----

  /** Every image stored for a profile belongs to one. */
  predicate Tidy(s: State) {
    forall key :: key in s.objects && Text.HasPrefix(key, "profiles/") ==> Referenced(s.rows, key)
  }

  /** The canonical key a staging key stands for. */
  function CanonicalOf(staging: Option<string>): Option<string> {
    if staging.None? then None else Canonical(staging.value, Profiles)
  }

  /** The promotion will copy a new object into the profile directory. */
  predicate Copies(objects: set<string>, staging: Option<string>, promote: Answer) {
    && CanonicalOf(staging).Some? && promote != Refused
    && CanonicalOf(staging).value !in objects && Text.TrimSpace(staging.value) in objects
  }

  /** The promotion will succeed: there is nothing to promote, or the key is valid, the store answers,
      and the image is in one of its two places. */
  predicate Promotes(objects: set<string>, staging: Option<string>, promote: Answer) {
    || staging.None?
    || (&& CanonicalOf(staging).Some? && promote == Done
        && (CanonicalOf(staging).value in objects || Text.TrimSpace(staging.value) in objects))
  }

  /** The commit is acknowledged and the delete after it is carried out. */
  predicate CleansUp(a: Answers) {
    a.commit == Done && a.delete != Refused
  }

  /** The registration will be stored. */
  predicate RegisterLands(s: State, id: UUID, walletAddress: string, staging: Option<string>, a: Answers) {
    && Promotes(s.objects, staging, a.promote) && a.commit != Refused
    && id !in s.rows && WalletUnused(s.rows, Text.TrimSpace(walletAddress))
  }

  /** The replacement will be stored. */
  predicate ReplaceLands(s: State, found: Option<UUID>, update: ImageUpdate, a: Answers) {
    Promotes(s.objects, StagingOf(update), a.promote) && found.Some? && a.commit != Refused
  }

  /** The deletion will be stored. */
  predicate DeleteLands(s: State, found: Option<UUID>, ownsCampaigns: bool, a: Answers)
    requires found.Some? ==> found.value in s.rows
  {
    found.Some? && !(s.rows[found.value].role == Fundraiser && ownsCampaigns) && a.commit != Refused
  }

  /** What a request will leave behind, told before it starts: a copied image whose row is not stored,
      or an old image that nothing refers to any more and that is not deleted. */
  ghost predicate LeavesOrphan(s: State, r: Request)
    requires Possible(s, r)
  {
    match r
    case Register(id, _, walletAddress, imageKey, a) =>
      var staging := NormalizeOptional(imageKey);
      Copies(s.objects, staging, a.promote) && !RegisterLands(s, id, walletAddress, staging, a)
    case Replace(_, _, found, update, a) =>
      if ReplaceLands(s, found, update, a) then
        ReplacedKey(s.rows, found.value, ImageUpdate(update.isSet, CanonicalOf(StagingOf(update)))).Some? && !CleansUp(a)
      else Copies(s.objects, StagingOf(update), a.promote)
    case Delete(_, _, found, ownsCampaigns, a) =>
      DeleteLands(s, found, ownsCampaigns, a) && DeletedKey(s.rows, found.value).Some? && !CleansUp(a)
    case Elsewhere(_) => false
  }

  /** However the outside calls end, a request leaves an unreferenced image behind exactly when the
      facts before the call say so. */
  lemma OrphansExactly(s: State, r: Request)
    requires Inv(s) && Tidy(s) && Possible(s, r)
    ensures Tidy(Effect(s, r).0) <==> !LeavesOrphan(s, r)
  {
    hide Text.TrimSpace, Text.HasPrefix, RegisterCall, ReplaceCall, DeleteCall, Copies, RegisterLands, ReplaceLands, DeleteLands,
         ReplacedKey, DeletedKey, CanonicalOf, CleansUp, Inv;
    match r
    case Register(id, role, walletAddress, imageKey, a) => RegisterTidy(s, id, role, walletAddress, imageKey, a);
    case Replace(_, _, found, update, a) => ReplaceTidy(s, found, update, a);
    case Delete(_, _, found, ownsCampaigns, a) => DeleteTidy(s, found, ownsCampaigns, a);
    case Elsewhere(_) =>
  }

  /** A promotion adds the canonical key exactly when it copies, and succeeds exactly when told. */
  lemma PromotionAdds(objects: set<string>, staging: Option<string>, promote: Answer)
    ensures
      var p := PromoteOptional(objects, staging, promote);
      && p.objects == (if Copies(objects, staging, promote) then objects + {CanonicalOf(staging).value} else objects)
      && (forall key :: key in p.objects ==> key in objects || CanonicalOf(staging) == Some(key))
      && (staging.None? ==> p.objects == objects)
      && (p.key.Ok? <==> Promotes(objects, staging, promote))
      && (p.key.Ok? ==> p.key.value == CanonicalOf(staging))
      && (p.key.Err? ==> p.key.error != Succeeded)
      && (CanonicalOf(staging).Some? ==> ProfileKey(CanonicalOf(staging).value))
      && (p.key.Ok? && staging.Some? ==> p.key.value.Some? && p.key.value.value in p.objects)
  {
    hide Canonical, Text.TrimSpace;
    if staging.Some? && Canonical(staging.value, Profiles).Some? {
      CanonicalLeavesStaging(staging.value, Profiles);
    }
  }

  /** An object copied although no row changed is an orphan. */
  lemma OrphanedBy(s: State, after: State, key: string)
    requires Inv(s) && key !in s.objects && ProfileKey(key)
    requires after.rows == s.rows && key in after.objects
    ensures !Tidy(after)
  {
    hide Text.TrimSpace, Text.HasPrefix;
    assert forall id :: id in s.rows ==> RowInv(s.objects, s.rows[id]);
    assert !Referenced(s.rows, key);
  }

  /** A commit that writes image to one row is tidy exactly when the image it displaced, if any, is
      gone or still referenced. */
  lemma TidyAfterCommit(s: State, after: State, id: UUID, image: Option<string>)
    requires Tidy(s) && id in after.rows && after.rows[id].image == image
    requires forall i :: i in s.rows && i != id ==> i in after.rows && after.rows[i] == s.rows[i]
    requires forall key :: key in after.objects ==> key in s.objects || image == Some(key)
    requires id in s.rows && s.rows[id].image.Some? ==> ProfileKey(s.rows[id].image.value)
    ensures Tidy(after)
            <==> (id in s.rows && s.rows[id].image.Some? && s.rows[id].image.value in after.objects
                  ==> Referenced(after.rows, s.rows[id].image.value))
  {
    hide Text.TrimSpace, Text.HasPrefix;
    if id in s.rows && s.rows[id].image.Some? && s.rows[id].image.value in after.objects
       ==> Referenced(after.rows, s.rows[id].image.value) {
      forall key | key in after.objects && Text.HasPrefix(key, "profiles/")
        ensures Referenced(after.rows, key)
      {
        if image != Some(key) {
          var i :| i in s.rows && s.rows[i].image == Some(key);
          assert i != id ==> after.rows[i].image == Some(key);
        }
      }
    }
  }

  lemma Shrunk(s: State, after: State)
    requires Tidy(s) && after.rows == s.rows && after.objects <= s.objects
    ensures Tidy(after)
  {
    hide Text.HasPrefix, Referenced;
  }

  lemma RegisterTidy(s: State, id: UUID, role: UserRole, walletAddress: string, imageKey: Option<string>, a: Answers)
    requires Inv(s) && Tidy(s)
    ensures
      var staging := NormalizeOptional(imageKey);
      Tidy(RegisterCall(s, id, role, walletAddress, imageKey, a).0)
      <==> !(Copies(s.objects, staging, a.promote) && !RegisterLands(s, id, walletAddress, staging, a))
  {
    hide Text.TrimSpace, Text.HasPrefix, PromoteOptional, Referenced, Inv, Tidy, Copies, Promotes, CanonicalOf, WalletUnused, Canonical;
    var staging := NormalizeOptional(imageKey);
    var after := RegisterCall(s, id, role, walletAddress, imageKey, a).0;
    PromotionAdds(s.objects, staging, a.promote);
    if RegisterLands(s, id, walletAddress, staging, a) {
      TidyAfterCommit(s, after, id, CanonicalOf(staging));
    } else if Copies(s.objects, staging, a.promote) {
      CopyIsNew(s.objects, staging, a.promote);
      OrphanedBy(s, after, CanonicalOf(staging).value);
    } else {
      assert after == s;
    }
  }

  lemma CopyIsNew(objects: set<string>, staging: Option<string>, promote: Answer)
    requires Copies(objects, staging, promote)
    ensures CanonicalOf(staging).Some? && CanonicalOf(staging).value !in objects
  {
    hide Canonical, Text.TrimSpace;
  }

  lemma ReplaceTidy(s: State, found: Option<UUID>, update: ImageUpdate, a: Answers)
    requires Inv(s) && Tidy(s) && (found.Some? ==> found.value in s.rows)
    ensures
      Tidy(ReplaceCall(s, found, update, a).0)
      <==> !(if ReplaceLands(s, found, update, a) then
               ReplacedKey(s.rows, found.value, ImageUpdate(update.isSet, CanonicalOf(StagingOf(update)))).Some? && !CleansUp(a)
             else Copies(s.objects, StagingOf(update), a.promote))
  {
    hide Text.TrimSpace, Text.HasPrefix, PromoteOptional, Referenced, Inv, Tidy, Copies, Promotes, CanonicalOf, Canonical,
         ReplacedKey, ReplacedRows, RemoveOptional, ProfileKey, CleansUp;
    var staging := StagingOf(update);
    var after := ReplaceCall(s, found, update, a).0;
    PromotionAdds(s.objects, staging, a.promote);
    if ReplaceLands(s, found, update, a) {
      ReplaceLanded(s, found.value, update, a, after);
    } else if Copies(s.objects, staging, a.promote) {
      CopyIsNew(s.objects, staging, a.promote);
      OrphanedBy(s, after, CanonicalOf(staging).value);
    } else {
      assert after == s;
    }
  }

  /** The store and rows of a replacement that is stored. */
  lemma ReplaceLanded(s: State, id: UUID, update: ImageUpdate, a: Answers, after: State)
    requires Inv(s) && Tidy(s) && id in s.rows && ReplaceLands(s, Some(id), update, a)
    requires after == ReplaceCall(s, Some(id), update, a).0
    ensures
      Tidy(after)
      <==> !(ReplacedKey(s.rows, id, ImageUpdate(update.isSet, CanonicalOf(StagingOf(update)))).Some? && !CleansUp(a))
  {
    hide Text.TrimSpace, Text.HasPrefix, PromoteOptional, Referenced, Tidy, Copies, Promotes, CanonicalOf, Canonical,
         ReplacedKey, RemoveOptional;
    var staging := StagingOf(update);
    var stored := ImageUpdate(update.isSet, CanonicalOf(staging));
    var doomed := ReplacedKey(s.rows, id, stored);
    PromotionAdds(s.objects, staging, a.promote);
    PromotionYieldsProfileKey(s.objects, staging, a.promote);
    assert RowInv(s.objects, s.rows[id]);
    ReplacedKeyIsOld(s.rows, id, stored);
    var promoted := PromoteOptional(s.objects, staging, a.promote).objects;
    var tidied := RemoveOptional(promoted, staging, a.discard);
    RemovesStaging(promoted, staging, a.discard);
    RemovesExactly(tidied, doomed, a.delete);
    if stored.isSet {
      TidyAfterCommit(s, after, id, stored.value);
    } else {
      Shrunk(s, after);
    }
  }

  /** The reported key is the old image, and it is reported exactly when nothing refers to it after. */
  lemma ReplacedKeyIsOld(rows: map<UUID, Profile>, id: UUID, update: ImageUpdate)
    requires id in rows
    ensures ReplacedKey(rows, id, update).Some? ==> update.isSet && ReplacedKey(rows, id, update) == rows[id].image
    ensures ReplacedKey(rows, id, update).Some? ==> !Referenced(ReplacedRows(rows, id, update), rows[id].image.value)
    ensures ReplacedKey(rows, id, update).None? && update.isSet && rows[id].image.Some?
            ==> Referenced(ReplacedRows(rows, id, update), rows[id].image.value)
    ensures ReplacedKey(rows, id, update).Some? ==> update.value != rows[id].image
  {
    if update.isSet && rows[id].image.Some? && !KeyChanged(rows[id].image.value, update.value) {
      assert ReplacedRows(rows, id, update)[id].image == rows[id].image;
    }
  }

  /** Discarding a staging object removes no profile image. */
  lemma RemovesStaging(objects: set<string>, staging: Option<string>, discard: Answer)
    requires staging.Some? ==> Text.HasPrefix(Text.TrimSpace(staging.value), "tmp/")
    ensures RemoveOptional(objects, staging, discard) <= objects
    ensures forall key :: key in objects && ProfileKey(key) ==> key in RemoveOptional(objects, staging, discard)
  {
    hide Text.TrimSpace, Text.HasPrefix;
    forall key | key in objects && ProfileKey(key)
      ensures key in RemoveOptional(objects, staging, discard)
    {
      DiscardSparesOthers(objects, staging, discard, key);
    }
  }

  lemma DeleteTidy(s: State, found: Option<UUID>, ownsCampaigns: bool, a: Answers)
    requires Inv(s) && Tidy(s) && (found.Some? ==> found.value in s.rows)
    ensures
      Tidy(DeleteCall(s, found, ownsCampaigns, a).0)
      <==> !(DeleteLands(s, found, ownsCampaigns, a) && DeletedKey(s.rows, found.value).Some? && !CleansUp(a))
  {
    hide Text.TrimSpace, Text.HasPrefix, Referenced, ReferencedByLive, Tidy, DeletedKey, RemoveOptional;
    var after := DeleteCall(s, found, ownsCampaigns, a).0;
    if DeleteLands(s, found, ownsCampaigns, a) {
      var id := found.value;
      assert forall i :: i in s.rows ==> RowInv(s.objects, s.rows[i]);
      DeletedKeyIsOld(s.rows, id);
      RemovesExactly(s.objects, DeletedKey(s.rows, id), a.delete);
      TidyAfterCommit(s, after, id, None);
    } else {
      assert after == s;
    }
  }

  lemma DeletedKeyIsOld(rows: map<UUID, Profile>, id: UUID)
    requires id in rows && forall i :: i in rows && rows[i].image.Some? ==> !rows[i].deleted
    ensures DeletedKey(rows, id).Some? ==> DeletedKey(rows, id) == rows[id].image
    ensures rows[id].image.Some? ==>
              (DeletedKey(rows, id).Some? <==> !Referenced(DeletedRows(rows, id), rows[id].image.value))
  {
    hide Referenced, ReferencedByLive;
    if rows[id].image.Some? {
      ChecksAgree(DeletedRows(rows, id), rows[id].image.value);
    }
  }

  // ---- Answers ----

  /** When a request succeeds, told from what it finds: its promotion succeeds, its commit is stored and
      acknowledged. The staging object is then gone, unless the store refused to discard it. */
  lemma SucceedsExactly(s: State, r: Request)
    requires Inv(s) && Possible(s, r)
    ensures r.Register? ==>
              (Effect(s, r).1 == Succeeded
               <==> RegisterLands(s, r.id, r.walletAddress, NormalizeOptional(r.imageKey), r.answers) && r.answers.commit == Done)
    ensures r.Replace? ==>
              (Effect(s, r).1 == Succeeded <==> ReplaceLands(s, r.found, r.update, r.answers) && r.answers.commit == Done)
    ensures r.Delete? ==>
              (Effect(s, r).1 == Succeeded <==> DeleteLands(s, r.found, r.ownsCampaigns, r.answers) && r.answers.commit == Done)
    ensures (r.Register? || r.Replace?) && Effect(s, r).1 == Succeeded && r.answers.discard != Refused && Staged(r).Some?
            ==> Text.TrimSpace(Staged(r).value) !in Effect(s, r).0.objects
  {
    hide Text.TrimSpace, Text.HasPrefix, PromoteOptional, Promotes, Copies, WalletUnused, ReplacedKey, ReplacedRows, DeletedKey,
         Inv, SelectsProfile, Canonical;
    if r.Register? || r.Replace? {
      PromotionAdds(s.objects, Staged(r), r.answers.promote);
      PromotionYieldsProfileKey(s.objects, Staged(r), r.answers.promote);
      if Staged(r).Some? {
        StagingIsNamed(Staged(r).value);
      }
    }
  }

  /** The staging key a request promotes. */
  function Staged(r: Request): Option<string> {
    match r
    case Register(_, _, _, imageKey, _) => NormalizeOptional(imageKey)
    case Replace(_, _, _, update, _) => StagingOf(update)
    case _ => None
  }

  lemma StagingIsNamed(staging: string)
    ensures Text.HasPrefix(Text.TrimSpace(staging), "tmp/") ==> Text.TrimSpace(staging) != ""
  {
    hide Text.TrimSpace;
  }
}
