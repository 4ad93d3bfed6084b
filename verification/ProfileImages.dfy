/** Profile pictures of fundraisers and supporters: the requests that promote an image, commit the
    row, discard the staging object and delete the old image once nothing refers to it. Here the
    requests run one after another; ProfileImageRaces interleaves them. */
module ProfileImages {
  import opened Options
  import opened Uuid
  import opened Domain
  import opened ObjectKeys
  import opened ObjectStore
  import Text

  /** A users row joined with its fundraisers or supporters row. */
  datatype Profile = Profile(role: UserRole, walletAddress: string, deleted: bool, image: Option<string>)

  /** The image part of a profile replacement; isSet tells an explicit null from an absent field. */
  datatype ImageUpdate = ImageUpdate(isSet: bool, value: Option<string>)

  /** How an outside call ends: carried out; not carried out; or carried out although the caller
      gets an error. A refused commit also stands for a taken e-mail address. */
  datatype Answer = Done | Refused | AckLost

  datatype Answers = Answers(promote: Answer, commit: Answer, discard: Answer, delete: Answer)

  datatype Outcome =
    | Succeeded
    | InvalidImageObjectKey
    | ImageObjectNotFound
    | StorageFailed
    | CommitFailed
    | ProfileNotFound
    | ActiveCampaignsExist

  datatype State = State(rows: map<UUID, Profile>, objects: set<string>)

  predicate ProfileKey(key: string) {
    Text.HasPrefix(key, "profiles/") && Text.TrimSpace(key) == key && key != ""
  }

  // ---- The statements inside the transactions ----

  /** The rows the profile queries of one role select for a wallet. */
  predicate MatchesProfile(profile: Profile, role: UserRole, walletAddress: string) {
    && profile.role == role
    && !profile.deleted
    && Text.Lower(profile.walletAddress) == Text.Lower(Text.TrimSpace(walletAddress))
  }

  predicate SelectsProfile(rows: map<UUID, Profile>, role: UserRole, walletAddress: string, found: Option<UUID>) {
    match found
    case Some(id) => id in rows && MatchesProfile(rows[id], role, walletAddress)
    case None => forall id :: id in rows ==> !MatchesProfile(rows[id], role, walletAddress)
  }

  /** users_wallet_address_key: rows of live users differ in their wallet address as stored. */
  predicate WalletsDiffer(rows: map<UUID, Profile>) {
    forall i, j ::
      i in rows && j in rows && i != j && !rows[i].deleted && !rows[j].deleted
      ==> rows[i].walletAddress != rows[j].walletAddress
  }

  /** The index lets in a live row with this wallet address. */
  predicate WalletUnused(rows: map<UUID, Profile>, walletAddress: string) {
    forall i :: i in rows && !rows[i].deleted ==> rows[i].walletAddress != walletAddress
  }

  /** The reference check of ReplaceProfile: any row of either table. */
  predicate Referenced(rows: map<UUID, Profile>, key: string) {
    exists id :: id in rows && rows[id].image == Some(key)
  }

  /** The reference check of DeleteProfile: rows of either table whose user is not deleted. */
  predicate ReferencedByLive(rows: map<UUID, Profile>, key: string) {
    exists id :: id in rows && rows[id].image == Some(key) && !rows[id].deleted
  }

  /** imageObjectKeyChanged. */
  predicate KeyChanged(current: string, updated: Option<string>) {
    updated.None? || current != updated.value
  }

  function ReplacedRows(rows: map<UUID, Profile>, id: UUID, update: ImageUpdate): map<UUID, Profile>
    requires id in rows
  {
    if update.isSet then rows[id := rows[id].(image := update.value)] else rows
  }

  /** The key ReplaceProfile reports for deletion. */
  function ReplacedKey(rows: map<UUID, Profile>, id: UUID, update: ImageUpdate): Option<string>
    requires id in rows
  {
    var current := rows[id].image;
    if update.isSet && current.Some? && KeyChanged(current.value, update.value)
       && !Referenced(ReplacedRows(rows, id, update), current.value)
    then current else None
  }

  function DeletedRows(rows: map<UUID, Profile>, id: UUID): map<UUID, Profile>
    requires id in rows
  {
    rows[id := rows[id].(image := None, deleted := true)]
  }

  /** The key DeleteProfile reports for deletion. */
  function DeletedKey(rows: map<UUID, Profile>, id: UUID): Option<string>
    requires id in rows
  {
    var current := rows[id].image;
    if current.Some? && !ReferencedByLive(DeletedRows(rows, id), current.value) then current else None
  }

  // ---- Whole requests, as functions of what the outside answered ----

  /** normalizeOptionalString: a blank key counts as no key. */
  function NormalizeOptional(value: Option<string>): Option<string> {
    if value.None? || Text.TrimSpace(value.value) == "" then None else Some(Text.TrimSpace(value.value))
  }

  datatype Promotion = Promotion(objects: set<string>, key: Result<Option<string>, Outcome>)

  /** promoteImageObjectKey for the profile directory. */
  function PromoteKey(objects: set<string>, staging: string, answer: Answer): Promotion {
    var canonical := Canonical(staging, Profiles);
    if canonical.None? then Promotion(objects, Err(InvalidImageObjectKey))
    else if answer == Refused then Promotion(objects, Err(StorageFailed))
    else
      var (after, error) := Promoted(objects, Text.TrimSpace(staging), canonical.value);
      if error == Some(ObjectNotFound) then Promotion(after, Err(ImageObjectNotFound))
      else if error.Some? || answer == AckLost then Promotion(after, Err(StorageFailed))
      else Promotion(after, Ok(canonical))
  }

  function PromoteOptional(objects: set<string>, staging: Option<string>, answer: Answer): Promotion {
    if staging.None? then Promotion(objects, Ok(None)) else PromoteKey(objects, staging.value, answer)
  }

  function RemoveOptional(objects: set<string>, key: Option<string>, answer: Answer): set<string> {
    if key.None? || answer == Refused then objects else Removed(objects, key.value)
  }

  /** Register of either service, under a fresh row id. */
  function RegisterCall(s: State, id: UUID, role: UserRole, walletAddress: string, imageKey: Option<string>, a: Answers)
    : (State, Outcome)
  {
    var staging := NormalizeOptional(imageKey);
    var promotion := PromoteOptional(s.objects, staging, a.promote);
    if promotion.key.Err? then (s.(objects := promotion.objects), promotion.key.error)
    else if a.commit == Refused || id in s.rows || !WalletUnused(s.rows, Text.TrimSpace(walletAddress))
    then (s.(objects := promotion.objects), CommitFailed)
    else
      var rows := s.rows[id := Profile(role, Text.TrimSpace(walletAddress), false, promotion.key.value)];
      if a.commit == AckLost then (State(rows, promotion.objects), CommitFailed)
      else (State(rows, RemoveOptional(promotion.objects, staging, a.discard)), Succeeded)
  }

  /** The staging key of a replacement: trimmed, and kept even when blank. */
  function StagingOf(update: ImageUpdate): Option<string> {
    if update.isSet && update.value.Some? then Some(Text.TrimSpace(update.value.value)) else None
  }

  /** ReplaceProfile of either service; found is what the locking query returned. */
  function ReplaceCall(s: State, found: Option<UUID>, update: ImageUpdate, a: Answers): (State, Outcome)
    requires found.Some? ==> found.value in s.rows
  {
    var staging := StagingOf(update);
    var promotion := PromoteOptional(s.objects, staging, a.promote);
    if promotion.key.Err? then (s.(objects := promotion.objects), promotion.key.error)
    else if found.None? then (s.(objects := promotion.objects), ProfileNotFound)
    else if a.commit == Refused then (s.(objects := promotion.objects), CommitFailed)
    else
      var stored := ImageUpdate(update.isSet, promotion.key.value);
      var rows := ReplacedRows(s.rows, found.value, stored);
      if a.commit == AckLost then (State(rows, promotion.objects), CommitFailed)
      else
        var tidied := RemoveOptional(promotion.objects, staging, a.discard);
        (State(rows, RemoveOptional(tidied, ReplacedKey(s.rows, found.value, stored), a.delete)), Succeeded)
  }

  /** DeleteProfile of either service; only a fundraiser can be refused for its campaigns. */
  function DeleteCall(s: State, found: Option<UUID>, ownsCampaigns: bool, a: Answers): (State, Outcome)
    requires found.Some? ==> found.value in s.rows
  {
    if found.None? then (s, ProfileNotFound)
    else if s.rows[found.value].role == Fundraiser && ownsCampaigns then (s, ActiveCampaignsExist)
    else if a.commit == Refused then (s, CommitFailed)
    else
      var rows := DeletedRows(s.rows, found.value);
      if a.commit == AckLost then (s.(rows := rows), CommitFailed)
      else (State(rows, RemoveOptional(s.objects, DeletedKey(s.rows, found.value), a.delete)), Succeeded)
  }

  // ---- The three requests, field by field ----

  /** Only this row changed, and it kept its role and its wallet. */
  predicate OnlyRow(before: map<UUID, Profile>, after: map<UUID, Profile>, id: UUID) {
    && id in before && after.Keys == before.Keys
    && (forall i :: i in before && i != id ==> after[i] == before[i])
    && after[id].role == before[id].role && after[id].walletAddress == before[id].walletAddress
  }

  /** What a deletion promises: its answer, told from what it finds, and the row it leaves. */
  predicate DeletePromise(
    rows: map<UUID, Profile>, after: map<UUID, Profile>, found: Option<UUID>, ownsCampaigns: bool, a: Answers, outcome: Outcome)
    requires found.Some? ==> found.value in rows
  {
    var refused := found.Some? && rows[found.value].role == Fundraiser && ownsCampaigns;
    && (outcome == ProfileNotFound <==> found.None?)
    && (outcome == ActiveCampaignsExist <==> refused)
    && (outcome == CommitFailed <==> found.Some? && !refused && a.commit != Done)
    && (outcome == Succeeded <==> found.Some? && !refused && a.commit == Done)
    && (outcome == Succeeded || (outcome == CommitFailed && a.commit == AckLost) ==>
          found.Some? && OnlyRow(rows, after, found.value) && after[found.value].deleted && after[found.value].image.None?)
    && (outcome != Succeeded && !(outcome == CommitFailed && a.commit == AckLost) ==> after == rows)
  }

  /** What a replacement promises about the rows: a set image field becomes the canonical key, which is
      the staging key without tmp/, or null; an absent one, and everything else, stays. */
  predicate ReplacePromise(
    rows: map<UUID, Profile>, after: map<UUID, Profile>, found: Option<UUID>, update: ImageUpdate, a: Answers, outcome: Outcome)
    requires found.Some? ==> found.value in rows
  {
    && (outcome == Succeeded ==> found.Some? && a.commit == Done)
    && (outcome == ProfileNotFound ==> found.None?)
    && (outcome == Succeeded || (outcome == CommitFailed && a.commit == AckLost) ==>
          && found.Some? && OnlyRow(rows, after, found.value) && after[found.value].deleted == rows[found.value].deleted
          && (!update.isSet ==> after[found.value].image == rows[found.value].image)
          && (update.isSet ==> IsCanonicalOf(after[found.value].image, update.value)))
    && (outcome != Succeeded && !(outcome == CommitFailed && a.commit == AckLost) ==> after == rows)
  }

  /** key is the stored form of a submitted image: none for none, else the trimmed text without tmp/. */
  predicate IsCanonicalOf(key: Option<string>, submitted: Option<string>) {
    && (key.Some? <==> submitted.Some?)
    && (key.Some? ==> Text.TrimSpace(submitted.value) == "tmp/" + key.value)
  }

  /** What a registration promises about the rows. */
  predicate RegisterPromise(
    rows: map<UUID, Profile>, after: map<UUID, Profile>, id: UUID, role: UserRole, walletAddress: string,
    imageKey: Option<string>, a: Answers, outcome: Outcome)
  {
    var blank := imageKey.None? || Text.TrimSpace(imageKey.value) == "";
    && (outcome == Succeeded ==> id !in rows && a.commit == Done && WalletUnused(rows, Text.TrimSpace(walletAddress)))
    && (outcome == Succeeded ==>
          && id in after && after == rows[id := after[id]]
          && after[id].role == role && after[id].walletAddress == Text.TrimSpace(walletAddress) && !after[id].deleted
          && IsCanonicalOf(after[id].image, if blank then None else imageKey))
    && (outcome != Succeeded && !(outcome == CommitFailed && a.commit == AckLost) ==> after == rows)
  }

  lemma CanonicalForm(staging: string)
    requires Canonical(staging, Profiles).Some?
    ensures IsCanonicalOf(Canonical(staging, Profiles), Some(staging))
  {
    hide Canonical, Text.TrimSpace;
    CanonicalDropsPrefix(staging, Profiles);
  }

  lemma RegisterByFields(s: State, id: UUID, role: UserRole, walletAddress: string, imageKey: Option<string>, a: Answers)
    ensures
      var (after, outcome) := RegisterCall(s, id, role, walletAddress, imageKey, a);
      RegisterPromise(s.rows, after.rows, id, role, walletAddress, imageKey, a, outcome)
  {
    hide Canonical, Text.TrimSpace, Promoted, RemoveOptional, WalletUnused;
    var staging := NormalizeOptional(imageKey);
    if staging.Some? {
      assert Text.TrimSpace(staging.value) == staging.value;
      if Canonical(staging.value, Profiles).Some? {
        CanonicalForm(staging.value);
      }
    }
  }

  lemma ReplaceByFields(s: State, found: Option<UUID>, update: ImageUpdate, a: Answers)
    requires found.Some? ==> found.value in s.rows
    ensures
      var (after, outcome) := ReplaceCall(s, found, update, a);
      ReplacePromise(s.rows, after.rows, found, update, a, outcome)
  {
    hide Canonical, Text.TrimSpace, Promoted, RemoveOptional, ReplacedKey;
    var staging := StagingOf(update);
    if staging.Some? {
      assert Text.TrimSpace(staging.value) == staging.value;
      if Canonical(staging.value, Profiles).Some? {
        CanonicalForm(staging.value);
      }
    }
  }

  lemma DeleteByFields(s: State, found: Option<UUID>, ownsCampaigns: bool, a: Answers)
    requires found.Some? ==> found.value in s.rows
    ensures
      var (after, outcome) := DeleteCall(s, found, ownsCampaigns, a);
      DeletePromise(s.rows, after.rows, found, ownsCampaigns, a, outcome)
  {
    hide RemoveOptional, DeletedKey;
  }

  /** The two profile services over their tables and the bucket. */
  class ProfileService {
    var rows: map<UUID, Profile>
    const bucket: Bucket

    ghost function Contents(): State
      reads this, bucket
    {
      State(rows, bucket.objects)
    }

    constructor (bucket: Bucket)
      ensures this.bucket == bucket && rows == map[]
    {
      this.bucket := bucket;
      rows := map[];
    }

    method Promote(staging: Option<string>, answer: Answer) returns (key: Result<Option<string>, Outcome>)
      modifies bucket
      ensures Promotion(bucket.objects, key) == PromoteOptional(old(bucket.objects), staging, answer)
    {
      if staging.None? {
        return Ok(None);
      }
      var canonical := Canonical(staging.value, Profiles);
      if canonical.None? {
        return Err(InvalidImageObjectKey);
      }
      if answer == Refused {
        return Err(StorageFailed);
      }
      var error := bucket.Promote(Text.TrimSpace(staging.value), canonical.value);
      if error == Some(ObjectNotFound) {
        return Err(ImageObjectNotFound);
      }
      if error.Some? || answer == AckLost {
        return Err(StorageFailed);
      }
      return Ok(canonical);
    }

    method Remove(key: Option<string>, answer: Answer)
      modifies bucket
      ensures bucket.objects == RemoveOptional(old(bucket.objects), key, answer)
    {
      if key.Some? && answer != Refused {
        bucket.Remove(key.value);
      }
    }

    method Register(id: UUID, role: UserRole, walletAddress: string, imageKey: Option<string>, a: Answers)
      returns (outcome: Outcome)
      modifies this, bucket
      ensures (Contents(), outcome) == RegisterCall(old(Contents()), id, role, walletAddress, imageKey, a)
      ensures RegisterPromise(old(rows), rows, id, role, walletAddress, imageKey, a, outcome)
    {
      hide Text.TrimSpace, PromoteKey, RemoveOptional, RegisterPromise;
      RegisterByFields(Contents(), id, role, walletAddress, imageKey, a);
      var staging := NormalizeOptional(imageKey);
      var key := Promote(staging, a.promote);
      if key.Err? {
        return key.error;
      }
      if a.commit == Refused || id in rows || !WalletUnused(rows, Text.TrimSpace(walletAddress)) {
        return CommitFailed;
      }
      rows := rows[id := Profile(role, Text.TrimSpace(walletAddress), false, key.value)];
      if a.commit == AckLost {
        return CommitFailed;
      }
      Remove(staging, a.discard);
      return Succeeded;
    }

    method ReplaceProfile(role: UserRole, walletAddress: string, update: ImageUpdate, a: Answers)
      returns (outcome: Outcome, ghost found: Option<UUID>)
      modifies this, bucket
      ensures SelectsProfile(old(rows), role, walletAddress, found)
      ensures (Contents(), outcome) == ReplaceCall(old(Contents()), found, update, a)
      ensures ReplacePromise(old(rows), rows, found, update, a, outcome)
    {
      hide Text.TrimSpace, PromoteKey, RemoveOptional, Text.Lower, ReplacePromise;
      ghost var before := Contents();
      var staging := StagingOf(update);
      var key := Promote(staging, a.promote);
      if id :| id in rows && MatchesProfile(rows[id], role, walletAddress) {
        found := Some(id);
        ReplaceByFields(before, found, update, a);
        if key.Err? {
          outcome := key.error;
          return;
        }
        if a.commit == Refused {
          outcome := CommitFailed;
          return;
        }
        var stored := ImageUpdate(update.isSet, key.value);
        var current := rows[id].image;
        if stored.isSet {
          rows := rows[id := rows[id].(image := stored.value)];
        }
        var doomed := None;
        if stored.isSet && current.Some? && KeyChanged(current.value, stored.value) {
          if !Referenced(rows, current.value) {
            doomed := current;
          }
        }
        if a.commit == AckLost {
          outcome := CommitFailed;
          return;
        }
        Remove(staging, a.discard);
        Remove(doomed, a.delete);
        outcome := Succeeded;
      } else {
        found := None;
        ReplaceByFields(before, found, update, a);
        outcome := if key.Err? then key.error else ProfileNotFound;
      }
    }

    method DeleteProfile(role: UserRole, walletAddress: string, ownsCampaigns: bool, a: Answers)
      returns (outcome: Outcome, ghost found: Option<UUID>)
      modifies this, bucket
      ensures SelectsProfile(old(rows), role, walletAddress, found)
      ensures (Contents(), outcome) == DeleteCall(old(Contents()), found, ownsCampaigns, a)
      ensures DeletePromise(old(rows), rows, found, ownsCampaigns, a, outcome)
    {
      hide Text.TrimSpace, RemoveOptional, Text.Lower, DeletePromise;
      ghost var before := Contents();
      if id :| id in rows && MatchesProfile(rows[id], role, walletAddress) {
        found := Some(id);
        DeleteByFields(before, found, ownsCampaigns, a);
        if role == Fundraiser && ownsCampaigns {
          outcome := ActiveCampaignsExist;
          return;
        }
        if a.commit == Refused {
          outcome := CommitFailed;
          return;
        }
        var current := rows[id].image;
        rows := rows[id := rows[id].(image := None)];
        rows := rows[id := rows[id].(deleted := true)];
        assert rows == DeletedRows(old(rows), id);
        var doomed := None;
        if current.Some? {
          if !ReferencedByLive(rows, current.value) {
            doomed := current;
          }
        }
        if a.commit == AckLost {
          outcome := CommitFailed;
          return;
        }
        Remove(doomed, a.delete);
        outcome := Succeeded;
      } else {
        found := None;
        DeleteByFields(before, found, ownsCampaigns, a);
        outcome := ProfileNotFound;
      }
    }
  }
}
