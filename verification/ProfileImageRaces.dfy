/** The profile requests of both services interleaved: every store call, lock, reference check and
    commit is a step of its own, any step may fail, and a request may stop anywhere. */
module ProfileImageRaces {
  import opened Options
  import opened Uuid
  import opened Domain
  import opened ObjectKeys
  import opened ProfileImages
  import Text

  /** A submitted image: the trimmed staging key and the canonical key it was validated to. */
  datatype Image = Image(staging: string, canonical: string)

  datatype Kind =
    | Register(id: UUID, role: UserRole, walletAddress: string)
    | Replace(role: UserRole, walletAddress: string, isSet: bool)
    | Delete(role: UserRole, walletAddress: string)

  datatype Job = Job(kind: Kind, image: Option<Image>)

  datatype Request =
      /** About to stat the destination. */
    | Submitted(job: Job)
      /** The destination was absent; about to copy. */
    | Copying(job: Job)
      /** The image, if any, is in place; about to open the transaction. */
    | Promoted(job: Job)
      /** The row is locked and its image read. */
    | Locked(job: Job, row: UUID)
      /** The row is written inside the transaction and the old image checked for references. */
    | Checked(job: Job, row: UUID, doomed: Option<string>)
      /** Committed; about to discard staging. */
    | Committed(job: Job, doomed: Option<string>)
      /** About to delete the old image. */
    | Deleting(key: string)

  /** committed records every key a commit ever wrote to a row. */
  datatype State = State(rows: map<UUID, Profile>, objects: set<string>, committed: set<string>, requests: map<nat, Request>)

  datatype Action =
    | Begin(pid: nat, job: Job)
    | Stat(pid: nat)
    | Copy(pid: nat)
    | Insert(pid: nat)
    | Lock(pid: nat, row: UUID)
    | Check(pid: nat)
    | Commit(pid: nat)
    | Discard(pid: nat, answer: Answer)
    | DeleteOld(pid: nat, answer: Answer)
      /** An error, a crash, or a row that is not found: the request is gone, its transaction rolled back. */
    | Abandon(pid: nat)
      /** Whatever else uses the bucket, outside profiles/. */
    | Elsewhere(objects: set<string>)

  predicate ValidJob(job: Job) {
    && (job.kind.Delete? || (job.kind.Replace? && !job.kind.isSet) ==> job.image.None?)
    && (job.image.Some? ==>
          && Canonical(job.image.value.staging, Profiles) == Some(job.image.value.canonical)
          && Text.TrimSpace(job.image.value.staging) == job.image.value.staging)
  }

  function NewKey(job: Job): Option<string> {
    if job.image.None? then None else Some(job.image.value.canonical)
  }

  predicate Holds(request: Request, row: UUID) {
    (request.Locked? || request.Checked?) && request.row == row
  }

  predicate LockFree(s: State, row: UUID) {
    forall pid :: pid in s.requests ==> !Holds(s.requests[pid], row)
  }

  /** The rows as the transaction of a job leaves them. */
  function Written(rows: map<UUID, Profile>, job: Job, row: UUID): map<UUID, Profile>
    requires row in rows
  {
    match job.kind
    case Replace(_, _, isSet) => ReplacedRows(rows, row, ImageUpdate(isSet, NewKey(job)))
    case _ => DeletedRows(rows, row)
  }

  /** The key the transaction finds unreferenced. */
  function Doomed(rows: map<UUID, Profile>, job: Job, row: UUID): Option<string>
    requires row in rows
  {
    match job.kind
    case Replace(_, _, isSet) => ReplacedKey(rows, row, ImageUpdate(isSet, NewKey(job)))
    case _ => DeletedKey(rows, row)
  }

  function KeysOf(job: Job): set<string> {
    if job.image.None? then {} else {job.image.value.canonical}
  }

  function Resumed(s: State, pid: nat, request: Request): State {
    s.(requests := s.requests[pid := request])
  }

  function Gone(s: State, pid: nat): State {
    s.(requests := s.requests - {pid})
  }

  ghost predicate Next(s: State, s': State, a: Action) {
    match a
    case Begin(pid, job) =>
      && pid !in s.requests && ValidJob(job)
      && s' == Resumed(s, pid, if job.image.Some? then Submitted(job) else Promoted(job))
    case Stat(pid) =>
      && pid in s.requests && s.requests[pid].Submitted? && s.requests[pid].job.image.Some?
      && var job := s.requests[pid].job;
      s' == Resumed(s, pid, if job.image.value.canonical in s.objects then Promoted(job) else Copying(job))
    case Copy(pid) =>
      && pid in s.requests && s.requests[pid].Copying? && s.requests[pid].job.image.Some?
      && var job := s.requests[pid].job;
      && job.image.value.staging in s.objects
      && s' == Resumed(s.(objects := s.objects + {job.image.value.canonical}), pid, Promoted(job))
    case Insert(pid) =>
      && pid in s.requests && s.requests[pid].Promoted? && s.requests[pid].job.kind.Register?
      && var job := s.requests[pid].job;
      && job.kind.id !in s.rows && WalletUnused(s.rows, Text.TrimSpace(job.kind.walletAddress))
      && var profile := Profile(job.kind.role, Text.TrimSpace(job.kind.walletAddress), false, NewKey(job));
      s' == Resumed(s.(rows := s.rows[job.kind.id := profile], committed := s.committed + KeysOf(job)), pid,
                    Committed(job, None))
    case Lock(pid, row) =>
      && pid in s.requests && s.requests[pid].Promoted? && !s.requests[pid].job.kind.Register?
      && var job := s.requests[pid].job;
      && row in s.rows && MatchesProfile(s.rows[row], job.kind.role, job.kind.walletAddress) && LockFree(s, row)
      && s' == Resumed(s, pid, Locked(job, row))
    case Check(pid) =>
      && pid in s.requests && s.requests[pid].Locked? && s.requests[pid].row in s.rows
      && var job, row := s.requests[pid].job, s.requests[pid].row;
      s' == Resumed(s, pid, Checked(job, row, Doomed(s.rows, job, row)))
    case Commit(pid) =>
      && pid in s.requests && s.requests[pid].Checked? && s.requests[pid].row in s.rows
      && var Checked(job, row, doomed) := s.requests[pid];
      s' == Resumed(s.(rows := Written(s.rows, job, row), committed := s.committed + KeysOf(job)), pid,
                    Committed(job, doomed))
    case Discard(pid, answer) =>
      && pid in s.requests && s.requests[pid].Committed?
      && var Committed(job, doomed) := s.requests[pid];
      && var staging := if job.image.Some? then Some(job.image.value.staging) else None;
      && var cleaned := s.(objects := RemoveOptional(s.objects, staging, answer));
      s' == if doomed.Some? then Resumed(cleaned, pid, Deleting(doomed.value)) else Gone(cleaned, pid)
    case DeleteOld(pid, answer) =>
      && pid in s.requests && s.requests[pid].Deleting?
      && s' == Gone(s.(objects := RemoveOptional(s.objects, Some(s.requests[pid].key), answer)), pid)
    case Abandon(pid) =>
      pid in s.requests && s' == Gone(s, pid)
    case Elsewhere(objects) =>
      && (forall key | Text.HasPrefix(key, "profiles/") :: key in s.objects <==> key in objects)
      && s' == s.(objects := objects)
  }

  ghost predicate IsRun(run: seq<State>, actions: seq<Action>) {
    && |run| == |actions| + 1
    && run[0].rows == map[] && run[0].requests == map[]
    && forall i :: 0 <= i < |actions| ==> Next(run[i], run[i + 1], actions[i])
  }

  // ---- The wallet index ----

  lemma WalletsKept(s: State, s': State, a: Action)
    requires WalletsDiffer(s.rows) && Next(s, s', a)
    ensures WalletsDiffer(s'.rows)
  {
    hide ValidJob, Text.TrimSpace, MatchesProfile, LockFree, Referenced, ReferencedByLive, RemoveOptional, Doomed;
  }

  /** The wallet index holds in every state of every run. */
  lemma {:induction false} WalletsOverRun(run: seq<State>, actions: seq<Action>, i: nat)
    requires IsRun(run, actions) && i < |run|
    ensures WalletsDiffer(run[i].rows)
  {
    hide Next;
    if i > 0 {
      WalletsOverRun(run, actions, i - 1);
      WalletsKept(run[i - 1], run[i], actions[i - 1]);
    }
  }

  lemma DeletedKept(s: State, s': State, a: Action, id: UUID)
    requires Next(s, s', a) && id in s.rows && s.rows[id].deleted
    ensures id in s'.rows && s'.rows[id].deleted
  {
    hide ValidJob, Text.TrimSpace, MatchesProfile, LockFree, Referenced, ReferencedByLive, RemoveOptional, Doomed, WalletUnused;
  }

  /** In every interleaving a deleted row stays deleted, and no later lock query selects it. */
  lemma {:induction false} DeletedForGood(
    run: seq<State>, actions: seq<Action>, i: nat, j: nat, id: UUID, role: UserRole, walletAddress: string)
    requires IsRun(run, actions) && i <= j < |run| && id in run[i].rows && run[i].rows[id].deleted
    ensures id in run[j].rows && run[j].rows[id].deleted
    ensures !SelectsProfile(run[j].rows, role, walletAddress, Some(id))
    decreases j
  {
    hide Next;
    if i < j {
      DeletedForGood(run, actions, i, j - 1, id, role, walletAddress);
      DeletedKept(run[j - 1], run[j], actions[j - 1], id);
    }
  }

  /** The commit of a deletion marks its row as deleted, clears its image, and changes no other. */
  lemma DeletionCommits(s: State, s': State, pid: nat)
    requires Next(s, s', Commit(pid)) && s.requests[pid].job.kind.Delete?
    ensures OnlyRow(s.rows, s'.rows, s.requests[pid].row)
    ensures s'.rows[s.requests[pid].row].deleted && s'.rows[s.requests[pid].row].image.None?
  {
    hide ValidJob, Text.TrimSpace;
  }

  // ---- The discipline ----

  predicate Submits(request: Request, key: string) {
    !request.Deleting? && NewKey(request.job) == Some(key)
  }

  /** No already-committed key is submitted again. */
  predicate NotResubmitted(s: State, a: Action) {
    a.Begin? && a.job.image.Some? ==> a.job.image.value.canonical !in s.committed
  }

  /** No two requests in flight submit the same key. */
  predicate NotShared(s: State, a: Action) {
    a.Begin? && a.job.image.Some? ==>
      forall pid :: pid in s.requests ==> !Submits(s.requests[pid], a.job.image.value.canonical)
  }

  ghost predicate Disciplined(run: seq<State>, actions: seq<Action>) {
    && |run| == |actions| + 1
    && forall i :: 0 <= i < |actions| ==> NotResubmitted(run[i], actions[i]) && NotShared(run[i], actions[i])
  }

  // ---- Every run: names ----

  predicate OptionalProfileKey(key: Option<string>) {
    key.Some? ==> ProfileKey(key.value)
  }

  predicate RequestNames(request: Request) {
    match request
    case Checked(job, _, doomed) => ValidJob(job) && OptionalProfileKey(doomed)
    case Committed(job, doomed) => ValidJob(job) && OptionalProfileKey(doomed)
    case Deleting(key) => ProfileKey(key)
    case _ => ValidJob(request.job)
  }

  predicate Names(s: State) {
    && (forall id :: id in s.rows ==> OptionalProfileKey(s.rows[id].image))
    && (forall pid :: pid in s.requests ==> RequestNames(s.requests[pid]))
  }

  lemma JobNames(job: Job)
    requires ValidJob(job)
    ensures OptionalProfileKey(NewKey(job))
    ensures job.image.Some? ==> Text.HasPrefix(Text.TrimSpace(job.image.value.staging), "tmp/")
  {
    hide Canonical, Text.TrimSpace;
    if job.image.Some? {
      CanonicalLeavesStaging(job.image.value.staging, Profiles);
    }
  }

  lemma NamesKept(s: State, s': State, a: Action)
    requires Names(s) && Next(s, s', a)
    ensures Names(s')
  {
    hide ProfileKey, ValidJob, Text.TrimSpace, MatchesProfile, LockFree, Referenced, ReferencedByLive, RemoveOptional;
    if !a.Elsewhere? && !a.Begin? && !s.requests[a.pid].Deleting? {
      assert RequestNames(s.requests[a.pid]);
      JobNames(s.requests[a.pid].job);
    }
  }

  lemma {:induction false} NamesOverRun(run: seq<State>, actions: seq<Action>, i: nat)
    requires IsRun(run, actions) && i < |run|
    ensures Names(run[i])
  {
    hide Next, Names;
    if i == 0 {
      NothingNamed(run[0]);
    } else {
      NamesOverRun(run, actions, i - 1);
      NamesKept(run[i - 1], run[i], actions[i - 1]);
    }
  }

  lemma NothingNamed(s: State)
    requires s.rows == map[] && s.requests == map[]
    ensures Names(s)
  {
  }

  /** In every run, disciplined or not, no step of a profile request removes a campaign image. */
  lemma CampaignImagesSurvive(run: seq<State>, actions: seq<Action>, i: nat, key: string)
    requires IsRun(run, actions) && i < |actions| && !actions[i].Elsewhere?
    requires key in run[i].objects && Text.HasPrefix(key, "campaigns/")
    ensures key in run[i + 1].objects
  {
    hide IsRun, ValidJob, Text.TrimSpace, Text.HasPrefix, MatchesProfile, LockFree, Written, Doomed, Canonical;
    StepOf(run, actions, i);
    NamesOverRun(run, actions, i);
    NameSpacesDisjoint(key);
    var a := actions[i];
    if a.Discard? {
      assert RequestNames(run[i].requests[a.pid]);
      JobNames(run[i].requests[a.pid].job);
    } else if a.DeleteOld? {
      assert RequestNames(run[i].requests[a.pid]);
    }
  }

  lemma StepOf(run: seq<State>, actions: seq<Action>, i: nat)
    requires IsRun(run, actions) && i < |actions|
    ensures |run| == |actions| + 1 && Next(run[i], run[i + 1], actions[i])
  {
    hide Next;
  }

  // ---- Disciplined runs: no live row dangles ----

  predicate Unreferenced(rows: map<UUID, Profile>, key: string) {
    forall id :: id in rows ==> rows[id].image != Some(key)
  }

  /** Before its commit a request's key has never been committed; from its promotion on it exists;
      a key chosen for deletion has been committed and only the locked row, if any, still holds it. */
  predicate RequestInv(s: State, request: Request) {
    match request
    case Submitted(job) => Uncommitted(s, job)
    case Copying(job) => Uncommitted(s, job)
    case Promoted(job) => Uncommitted(s, job) && Present(s, job)
    case Locked(job, row) => Uncommitted(s, job) && Present(s, job) && RowHeld(s, job, row)
    case Checked(job, row, doomed) =>
      && Uncommitted(s, job) && Present(s, job) && RowHeld(s, job, row)
      && (doomed.Some? ==>
            && doomed.value in s.committed
            && (forall id :: id in s.rows && s.rows[id].image == doomed ==> id == row)
            && (job.kind.Replace? ==> job.kind.isSet))
    case Committed(_, doomed) => doomed.Some? ==> doomed.value in s.committed && Unreferenced(s.rows, doomed.value)
    case Deleting(key) => key in s.committed && Unreferenced(s.rows, key)
  }

  predicate RowHeld(s: State, job: Job, row: UUID) {
    row in s.rows && !s.rows[row].deleted && !job.kind.Register?
  }

  predicate Uncommitted(s: State, job: Job) {
    job.image.Some? ==> job.image.value.canonical !in s.committed
  }

  predicate Present(s: State, job: Job) {
    job.image.Some? ==> job.image.value.canonical in s.objects
  }

  predicate RowsInv(s: State) {
    forall id :: id in s.rows && s.rows[id].image.Some? ==>
      && !s.rows[id].deleted
      && s.rows[id].image.value in s.objects
      && s.rows[id].image.value in s.committed
  }

  /** Two requests lock different rows and submit different keys. */
  predicate Apart(a: Request, b: Request) {
    && ((a.Locked? || a.Checked?) && (b.Locked? || b.Checked?) ==> a.row != b.row)
    && (!a.Deleting? && !b.Deleting? && a.job.image.Some? && b.job.image.Some? ==> NewKey(a.job) != NewKey(b.job))
  }

  predicate Exclusive(s: State) {
    forall p, q :: p in s.requests && q in s.requests && p != q ==> Apart(s.requests[p], s.requests[q])
  }

  predicate Inv(s: State) {
    && RowsInv(s)
    && Exclusive(s)
    && (forall pid :: pid in s.requests ==> RequestInv(s, s.requests[pid]))
  }

  /** Steps that leave rows and history alone and lose no key that anyone counts on. */
  predicate Gentle(s: State, s': State) {
    && s'.rows == s.rows && s'.committed == s.committed
    && (forall id ::
          id in s.rows && s.rows[id].image.Some? && s.rows[id].image.value in s.objects
          ==> s.rows[id].image.value in s'.objects)
    && (forall pid ::
          pid in s.requests && !s.requests[pid].Deleting? && Uncommitted(s, s.requests[pid].job)
          && Present(s, s.requests[pid].job)
          ==> Present(s', s.requests[pid].job))
  }

  lemma GentleKeeps(s: State, s': State, pid: nat)
    requires Inv(s) && Gentle(s, s') && pid in s.requests
    ensures RequestInv(s', s.requests[pid])
  {
    assert RequestInv(s, s.requests[pid]);
  }

  lemma ElsewhereKeeps(s: State, s': State, objects: set<string>)
    requires Inv(s) && Names(s) && Next(s, s', Elsewhere(objects))
    ensures Inv(s')
  {
    hide RequestInv, ValidJob, Text.TrimSpace, Text.HasPrefix, Holds;
    forall pid | pid in s.requests && !s.requests[pid].Deleting? && Present(s, s.requests[pid].job)
      ensures Present(s', s.requests[pid].job)
    {
      assert RequestNames(s.requests[pid]);
      JobNames(s.requests[pid].job);
    }
    assert Gentle(s, s');
    forall pid | pid in s'.requests
      ensures RequestInv(s', s'.requests[pid])
    {
      GentleKeeps(s, s', pid);
    }
  }

  lemma BeginKeeps(s: State, s': State, pid: nat, job: Job)
    requires Inv(s) && Next(s, s', Begin(pid, job))
    requires NotResubmitted(s, Begin(pid, job)) && NotShared(s, Begin(pid, job))
    ensures Inv(s')
  {
    hide RequestInv, ValidJob, Text.TrimSpace, Text.HasPrefix;
    forall q | q in s'.requests
      ensures RequestInv(s', s'.requests[q])
    {
      if q != pid {
        GentleKeeps(s, s', q);
      } else {
        FreshInv(s', job);
      }
    }
  }

  lemma FreshInv(s: State, job: Job)
    requires Uncommitted(s, job)
    ensures job.image.Some? ==> RequestInv(s, Submitted(job))
    ensures job.image.None? ==> RequestInv(s, Promoted(job))
  {
  }

  /** A request that goes on without taking a lock or another key stays apart from the others. */
  lemma StillExclusive(s: State, s': State, pid: nat)
    requires Exclusive(s) && pid in s.requests
    requires s'.requests.Keys <= s.requests.Keys
    requires forall q :: q in s'.requests && q != pid ==> s'.requests[q] == s.requests[q]
    requires
      pid in s'.requests ==>
        var was, now := s.requests[pid], s'.requests[pid];
        && (!now.Deleting? ==> !was.Deleting? && now.job == was.job)
        && (now.Locked? || now.Checked? ==> (was.Locked? || was.Checked?) && now.row == was.row)
    ensures Exclusive(s')
  {
    forall p, q | p in s'.requests && q in s'.requests && p != q
      ensures Apart(s'.requests[p], s'.requests[q])
    {
      assert Apart(s.requests[p], s.requests[q]);
    }
  }

  /** Steps of one request that only look or copy. */
  lemma QuietKeeps(s: State, s': State, a: Action)
    requires Inv(s) && Next(s, s', a) && (a.Stat? || a.Copy? || a.Abandon?)
    ensures Inv(s')
  {
    hide ValidJob, Text.TrimSpace, Text.HasPrefix, Exclusive, Apart, LockFree, MatchesProfile, RequestInv;
    StillExclusive(s, s', a.pid);
    forall q | q in s'.requests
      ensures RequestInv(s', s'.requests[q])
    {
      GentleKeeps(s, s', q);
      if q == a.pid {
        PromotionInv(s, s', s.requests[q], s'.requests[q]);
      }
    }
  }

  lemma PromotionInv(s: State, s': State, was: Request, next: Request)
    requires RequestInv(s, was) && (was.Submitted? || was.Copying?)
    requires next == Copying(was.job) || (next == Promoted(was.job) && Present(s', was.job))
    requires s'.committed == s.committed
    ensures RequestInv(s', next)
  {
  }

  lemma LockKeeps(s: State, s': State, pid: nat, row: UUID)
    requires Inv(s) && Next(s, s', Lock(pid, row))
    ensures Inv(s')
  {
    hide ValidJob, Text.TrimSpace, Text.HasPrefix, Text.Lower, RequestInv;
    forall q | q in s'.requests
      ensures RequestInv(s', s'.requests[q])
    {
      GentleKeeps(s, s', q);
      if q == pid {
        LockedInv(s, s', s.requests[q].job, row);
      }
    }
    forall p, q | p in s'.requests && q in s'.requests && p != q
      ensures Apart(s'.requests[p], s'.requests[q])
    {
      assert Apart(s.requests[p], s.requests[q]);
      assert !Holds(s.requests[p], row) && !Holds(s.requests[q], row);
    }
  }

  lemma LockedInv(s: State, s': State, job: Job, row: UUID)
    requires RequestInv(s, Promoted(job)) && s'.rows == s.rows && s'.objects == s.objects && s'.committed == s.committed
    requires row in s.rows && !s.rows[row].deleted && !job.kind.Register?
    ensures RequestInv(s', Locked(job, row))
  {
  }

  lemma CheckKeeps(s: State, s': State, pid: nat)
    requires Inv(s) && Next(s, s', Check(pid))
    ensures Inv(s')
  {
    hide ValidJob, Text.TrimSpace, Text.HasPrefix, Exclusive, Apart, RequestInv, Doomed;
    StillExclusive(s, s', pid);
    forall q | q in s'.requests
      ensures RequestInv(s', s'.requests[q])
    {
      GentleKeeps(s, s', q);
      if q == pid {
        CheckedInv(s, s.requests[q].job, s.requests[q].row);
        GentleRequest(s, s', s'.requests[q]);
      }
    }
  }

  lemma GentleRequest(s: State, s': State, request: Request)
    requires RequestInv(s, request) && s'.rows == s.rows && s'.objects == s.objects && s'.committed == s.committed
    ensures RequestInv(s', request)
  {
  }

  /** A key found unreferenced is held by the locked row alone: rows that hold an image are live, so
      both reference checks have seen them all. */
  lemma CheckedInv(s: State, job: Job, row: UUID)
    requires RowsInv(s) && RequestInv(s, Locked(job, row))
    ensures RequestInv(s, Checked(job, row, Doomed(s.rows, job, row)))
  {
    var doomed := Doomed(s.rows, job, row);
    if doomed.Some? {
      var after := Written(s.rows, job, row);
      forall id | id in s.rows && s.rows[id].image == doomed
        ensures id == row
      {
        assert id != row ==> id in after && after[id] == s.rows[id];
      }
    }
  }

  lemma DiscardKeeps(s: State, s': State, pid: nat, answer: Answer)
    requires Inv(s) && Names(s) && Next(s, s', Discard(pid, answer))
    ensures Inv(s')
  {
    hide Names, Exclusive, Apart, RequestInv, RemoveOptional;
    StillExclusive(s, s', pid);
    DiscardIsGentle(s, s', pid, answer);
    forall q | q in s'.requests
      ensures RequestInv(s', s'.requests[q])
    {
      GentleKeeps(s, s', q);
      if q == pid {
        DeletingInv(s', s.requests[q]);
      }
    }
  }

  lemma DiscardIsGentle(s: State, s': State, pid: nat, answer: Answer)
    requires Names(s) && Next(s, s', Discard(pid, answer))
    ensures Gentle(s, s')
  {
    hide ValidJob, Text.TrimSpace, Text.HasPrefix;
    assert RequestNames(s.requests[pid]);
    forall key | key in s.objects && ProfileKey(key)
      ensures key in s'.objects
    {
      StagingApart(s.requests[pid].job, key);
    }
    forall q | q in s.requests && !s.requests[q].Deleting? && Present(s, s.requests[q].job)
      ensures Present(s', s.requests[q].job)
    {
      assert RequestNames(s.requests[q]);
      JobNames(s.requests[q].job);
    }
  }

  lemma StagingApart(job: Job, key: string)
    requires ValidJob(job) && ProfileKey(key)
    ensures job.image.Some? ==> Text.TrimSpace(job.image.value.staging) != key
  {
    hide Canonical, Text.TrimSpace, Text.HasPrefix;
    JobNames(job);
    NameSpacesDisjoint(key);
  }

  lemma DeletingInv(s: State, was: Request)
    requires RequestInv(s, was) && was.Committed? && was.doomed.Some?
    ensures RequestInv(s, Deleting(was.doomed.value))
  {
  }

  lemma DeleteOldKeeps(s: State, s': State, pid: nat, answer: Answer)
    requires Inv(s) && Names(s) && Next(s, s', DeleteOld(pid, answer))
    ensures Inv(s')
  {
    hide ValidJob, Text.TrimSpace, Text.HasPrefix, Exclusive, Apart;
    StillExclusive(s, s', pid);
    assert RequestNames(s.requests[pid]) && RequestInv(s, s.requests[pid]);
    assert Gentle(s, s');
    forall q | q in s'.requests
      ensures RequestInv(s', s'.requests[q])
    {
      GentleKeeps(s, s', q);
    }
  }

  /** A commit writes one row and adds its key to the history. */
  predicate Commits(s: State, s': State, pid: nat, row: UUID) {
    && pid in s.requests && !s.requests[pid].Deleting? && Uncommitted(s, s.requests[pid].job)
    && s'.objects == s.objects && s'.committed == s.committed + KeysOf(s.requests[pid].job)
    && row in s'.rows && s'.rows.Keys == s.rows.Keys + {row}
    && (forall id :: id in s.rows && id != row ==> s'.rows[id] == s.rows[id])
    && (s'.rows[row].image.Some? ==>
          s'.rows[row].image == NewKey(s.requests[pid].job) || (row in s.rows && s'.rows[row].image == s.rows[row].image))
  }

  /** Another request never notices a commit. */
  lemma CommitSpares(s: State, s': State, pid: nat, row: UUID, q: nat)
    requires Inv(s) && Commits(s, s', pid, row) && q in s.requests && q != pid
    requires row !in s.rows || Holds(s.requests[pid], row)
    ensures RequestInv(s', s.requests[q])
  {
    hide RequestInv, Apart, RowsInv;
    ApartOf(s, pid, q);
    CommitSparesRequest(s, s', pid, row, s.requests[q]);
  }

  lemma CommitSparesRequest(s: State, s': State, pid: nat, row: UUID, request: Request)
    requires RequestInv(s, request) && Commits(s, s', pid, row) && Apart(s.requests[pid], request)
    requires row !in s.rows || Holds(s.requests[pid], row)
    ensures RequestInv(s', request)
  {
    if request.Locked? || request.Checked? {
      assert request.row in s.rows && request.row != row;
    }
  }

  lemma ApartOf(s: State, p: nat, q: nat)
    requires Exclusive(s) && p in s.requests && q in s.requests && p != q
    ensures Apart(s.requests[p], s.requests[q])
  {
  }

  lemma InsertKeeps(s: State, s': State, pid: nat)
    requires Inv(s) && Next(s, s', Insert(pid))
    ensures Inv(s')
  {
    hide ValidJob, Text.TrimSpace, Text.HasPrefix, Exclusive, Apart;
    StillExclusive(s, s', pid);
    assert RequestInv(s, s.requests[pid]);
    var row := s.requests[pid].job.kind.id;
    assert Commits(s, s', pid, row);
    forall q | q in s'.requests
      ensures RequestInv(s', s'.requests[q])
    {
      if q != pid {
        CommitSpares(s, s', pid, row, q);
      }
    }
  }

  lemma CommitKeeps(s: State, s': State, pid: nat)
    requires Inv(s) && Names(s) && Next(s, s', Commit(pid))
    ensures Inv(s')
  {
    hide Exclusive, Apart, Written, RequestInv, RowsInv, Commits, ValidJob;
    StillExclusive(s, s', pid);
    var row := s.requests[pid].row;
    assert RequestInv(s, s.requests[pid]) && RequestNames(s.requests[pid]);
    WrittenRow(s, s', pid);
    forall q | q in s'.requests
      ensures RequestInv(s', s'.requests[q])
    {
      if q != pid {
        CommitSpares(s, s', pid, row, q);
      }
    }
  }

  lemma WrittenRow(s: State, s': State, pid: nat)
    requires RowsInv(s) && Next(s, s', Commit(pid))
    requires RequestInv(s, s.requests[pid]) && ValidJob(s.requests[pid].job)
    ensures Commits(s, s', pid, s.requests[pid].row)
    ensures RowsInv(s') && RequestInv(s', s'.requests[pid])
  {
    hide Text.TrimSpace, Canonical;
  }

  lemma StepKeeps(s: State, s': State, a: Action)
    requires Inv(s) && Names(s) && Next(s, s', a) && NotResubmitted(s, a) && NotShared(s, a)
    ensures Inv(s')
  {
    hide Inv, Names, NotResubmitted, NotShared;
    match a
    case Begin(pid, job) => BeginKeeps(s, s', pid, job);
    case Insert(pid) => InsertKeeps(s, s', pid);
    case Lock(pid, row) => LockKeeps(s, s', pid, row);
    case Check(pid) => CheckKeeps(s, s', pid);
    case Commit(pid) => CommitKeeps(s, s', pid);
    case Discard(pid, answer) => DiscardKeeps(s, s', pid, answer);
    case DeleteOld(pid, answer) => DeleteOldKeeps(s, s', pid, answer);
    case Elsewhere(objects) => ElsewhereKeeps(s, s', objects);
    case _ => QuietKeeps(s, s', a);
  }

  lemma {:induction false} InvOverRun(run: seq<State>, actions: seq<Action>, i: nat)
    requires IsRun(run, actions) && Disciplined(run, actions) && i < |run|
    ensures Inv(run[i])
  {
    hide Next, NotResubmitted, NotShared;
    if i > 0 {
      InvOverRun(run, actions, i - 1);
      NamesOverRun(run, actions, i - 1);
      StepKeeps(run[i - 1], run[i], actions[i - 1]);
    }
  }

  /** In every interleaving in which no committed key is submitted again and no two requests in
      flight submit the same key, every image a profile row refers to exists, and rows of deleted
      users refer to none. */
  lemma NoRaceDangles(run: seq<State>, actions: seq<Action>, i: nat, id: UUID)
    requires IsRun(run, actions) && Disciplined(run, actions) && i < |run|
    requires id in run[i].rows && run[i].rows[id].image.Some?
    ensures run[i].rows[id].image.value in run[i].objects
    ensures !run[i].rows[id].deleted
  {
    hide IsRun, Disciplined;
    InvOverRun(run, actions, i);
  }
}
