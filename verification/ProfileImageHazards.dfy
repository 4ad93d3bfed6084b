/** Both halves of the discipline are needed: dropping either one admits a run that ends with a live
    profile row whose image is gone. */
module ProfileImageHazards {
  import opened Options
  import opened Uuid
  import opened Domain
  import opened ObjectKeys
  import Images = ProfileImages
  import opened ProfileImageRaces
  import Text

  datatype Half = OnlyUnshared | OnlyNotResubmitted

  predicate Allowed(half: Half, s: State, a: Action) {
    match half
    case OnlyUnshared => NotShared(s, a)
    case OnlyNotResubmitted => NotResubmitted(s, a)
  }

  ghost predicate Lax(half: Half, run: seq<State>, actions: seq<Action>) {
    && IsRun(run, actions)
    && forall i :: 0 <= i < |actions| ==> Allowed(half, run[i], actions[i])
  }

  lemma Extend(half: Half, run: seq<State>, actions: seq<Action>, s: State, a: Action)
    requires Lax(half, run, actions) && Next(run[|run| - 1], s, a) && Allowed(half, run[|run| - 1], a)
    ensures Lax(half, run + [s], actions + [a])
  {
    hide Next, Allowed;
  }

  ghost predicate Dangles(s: State, row: UUID) {
    row in s.rows && !s.rows[row].deleted && s.rows[row].image.Some? && s.rows[row].image.value !in s.objects
  }

  function Owner(walletAddress: string, image: Option<string>): Images.Profile {
    Images.Profile(Supporter, Text.TrimSpace(walletAddress), false, image)
  }

  function Registration(id: UUID, walletAddress: string, image: Image): Job {
    Job(Register(id, Supporter, walletAddress), Some(image))
  }

  function Clearing(walletAddress: string): Job {
    Job(Replace(Supporter, walletAddress, true), None)
  }

  /** A run that goes on from s to s' within the half of the discipline. */
  ghost predicate Leads(half: Half, s: State, s': State, a: Action) {
    Next(s, s', a) && Allowed(half, s, a)
  }

  lemma Grow(half: Half, run: seq<State>, actions: seq<Action>, s: State, a: Action)
    returns (run': seq<State>, actions': seq<Action>)
    requires Lax(half, run, actions) && |run| > 0 && Leads(half, run[|run| - 1], s, a)
    ensures Lax(half, run', actions') && |run'| > 0 && run'[|run'| - 1] == s
  {
    Extend(half, run, actions, s, a);
    run', actions' := run + [s], actions + [a];
  }

  // ---- One owner clears the image it alone refers to ----

  lemma ClearBegins(half: Half, s: State, w: string)
    requires 0 !in s.requests
    ensures Leads(half, s, Resumed(s, 0, Promoted(Clearing(w))), Begin(0, Clearing(w)))
  {
  }

  lemma ClearLocks(half: Half, s: State, a: UUID, w: string, key: Option<string>)
    requires 0 in s.requests && s.requests[0] == Promoted(Clearing(w)) && LockFree(s, a)
    requires a in s.rows && s.rows[a] == Owner(w, key)
    ensures Leads(half, s, Resumed(s, 0, Locked(Clearing(w), a)), Lock(0, a))
  {
    hide Text.TrimSpace, Text.Lower;
  }

  lemma ClearChecks(half: Half, s: State, a: UUID, w: string, key: string)
    requires 0 in s.requests && s.requests[0] == Locked(Clearing(w), a)
    requires s.rows == map[a := Owner(w, Some(key))]
    ensures Leads(half, s, Resumed(s, 0, Checked(Clearing(w), a, Some(key))), Check(0))
  {
    hide Text.TrimSpace;
    assert Written(s.rows, Clearing(w), a)[a].image == None;
  }

  lemma ClearCommits(half: Half, s: State, a: UUID, w: string, key: string)
    requires 0 in s.requests && s.requests[0] == Checked(Clearing(w), a, Some(key))
    requires s.rows == map[a := Owner(w, Some(key))]
    ensures Leads(half, s, Resumed(s.(rows := map[a := Owner(w, None)]), 0, Committed(Clearing(w), Some(key))), Commit(0))
  {
    hide Text.TrimSpace;
    assert Written(s.rows, Clearing(w), a) == map[a := Owner(w, None)];
    assert s.committed + KeysOf(Clearing(w)) == s.committed;
  }

  lemma ClearDiscards(half: Half, s: State, w: string, key: string)
    requires 0 in s.requests && s.requests[0] == Committed(Clearing(w), Some(key))
    ensures Leads(half, s, Resumed(s, 0, Deleting(key)), Discard(0, Images.Refused))
  {
  }

  /** Request 0 goes through, up to the moment before it deletes the old image. */
  lemma Clears(half: Half, run: seq<State>, actions: seq<Action>, s: State, a: UUID, w: string, key: string)
    returns (run': seq<State>, actions': seq<Action>)
    requires Lax(half, run, actions) && |run| > 0 && run[|run| - 1] == s && 0 !in s.requests && LockFree(s, a)
    requires s.rows == map[a := Owner(w, Some(key))]
    ensures Lax(half, run', actions') && |run'| > 0
    ensures run'[|run'| - 1] == Resumed(s.(rows := map[a := Owner(w, None)]), 0, Deleting(key))
  {
    hide Lax, Leads, Owner;
    var job := Clearing(w);
    var s1 := Resumed(s, 0, Promoted(job));
    ClearBegins(half, s, w);
    run', actions' := Grow(half, run, actions, s1, Begin(0, job));
    var s2 := Resumed(s1, 0, Locked(job, a));
    ClearLocks(half, s1, a, w, Some(key));
    run', actions' := Grow(half, run', actions', s2, Lock(0, a));
    var s3 := Resumed(s2, 0, Checked(job, a, Some(key)));
    ClearChecks(half, s2, a, w, key);
    run', actions' := Grow(half, run', actions', s3, Check(0));
    var s4 := Resumed(s3.(rows := map[a := Owner(w, None)]), 0, Committed(job, Some(key)));
    ClearCommits(half, s3, a, w, key);
    run', actions' := Grow(half, run', actions', s4, Commit(0));
    var s5 := Resumed(s4, 0, Deleting(key));
    ClearDiscards(half, s4, w, key);
    run', actions' := Grow(half, run', actions', s5, Discard(0, Images.Refused));
    assert s5.requests == s.requests[0 := Deleting(key)];
  }

  // ---- Registrations ----

  predicate Uploaded(image: Image) {
    Canonical(image.staging, Profiles) == Some(image.canonical) && Text.TrimSpace(image.staging) == image.staging
  }

  lemma RegisterBegins(half: Half, s: State, pid: nat, id: UUID, w: string, image: Image)
    requires Uploaded(image) && pid !in s.requests
    requires half == OnlyUnshared ==> forall q :: q in s.requests ==> !Submits(s.requests[q], image.canonical)
    requires half == OnlyNotResubmitted ==> image.canonical !in s.committed
    ensures
      var job := Registration(id, w, image);
      Leads(half, s, Resumed(s, pid, Submitted(job)), Begin(pid, job))
  {
    hide Canonical, Text.TrimSpace;
  }

  lemma RegisterStats(half: Half, s: State, pid: nat, id: UUID, w: string, image: Image)
    requires pid in s.requests && s.requests[pid] == Submitted(Registration(id, w, image))
    ensures
      var job := Registration(id, w, image);
      Leads(half, s, Resumed(s, pid, if image.canonical in s.objects then Promoted(job) else Copying(job)), Stat(pid))
  {
  }

  lemma RegisterCopies(half: Half, s: State, pid: nat, id: UUID, w: string, image: Image)
    requires pid in s.requests && s.requests[pid] == Copying(Registration(id, w, image)) && image.staging in s.objects
    ensures
      var job := Registration(id, w, image);
      Leads(half, s, Resumed(s.(objects := s.objects + {image.canonical}), pid, Promoted(job)), Copy(pid))
  {
  }

  lemma RegisterInserts(half: Half, s: State, pid: nat, id: UUID, w: string, image: Image)
    requires pid in s.requests && s.requests[pid] == Promoted(Registration(id, w, image)) && id !in s.rows
    requires Images.WalletUnused(s.rows, Text.TrimSpace(w))
    ensures
      var job := Registration(id, w, image);
      Leads(half, s,
            Resumed(s.(rows := s.rows[id := Owner(w, Some(image.canonical))], committed := s.committed + {image.canonical}),
                    pid, Committed(job, None)),
            Insert(pid))
  {
    hide Text.TrimSpace;
  }

  lemma RegisterDiscards(half: Half, s: State, pid: nat, id: UUID, w: string, image: Image)
    requires pid in s.requests && s.requests[pid] == Committed(Registration(id, w, image), None)
    ensures Leads(half, s, Gone(s, pid), Discard(pid, Images.Refused))
  {
  }

  lemma OldImageGoes(half: Half, s: State, key: string)
    requires 0 in s.requests && s.requests[0] == Deleting(key) && Text.TrimSpace(key) == key && key != ""
    ensures Leads(half, s, Gone(s.(objects := s.objects - {key}), 0), DeleteOld(0, Images.Done))
  {
    hide Text.TrimSpace;
  }

  function Start(image: Image): State {
    State(map[], {image.staging}, {}, map[])
  }

  lemma NoWalletsYet(w: string)
    ensures Images.WalletUnused(map[], w)
  {
  }

  /** The first owner promotes the image. */
  lemma Promotes(half: Half, run: seq<State>, actions: seq<Action>, s: State, a: UUID, w: string, image: Image)
    returns (run': seq<State>, actions': seq<Action>)
    requires Lax(half, run, actions) && |run| > 0 && run[|run| - 1] == s && 0 !in s.requests
    requires Uploaded(image) && image.canonical != image.staging
    requires s.objects == {image.staging} && s.committed == {}
    requires half == OnlyUnshared ==> s.requests == map[]
    ensures Lax(half, run', actions') && |run'| > 0
    ensures
      run'[|run'| - 1]
      == Resumed(s.(objects := {image.staging, image.canonical}), 0, Promoted(Registration(a, w, image)))
  {
    hide Lax, Leads, Uploaded;
    var job := Registration(a, w, image);
    RegisterBegins(half, s, 0, a, w, image);
    var s1 := Resumed(s, 0, Submitted(job));
    run', actions' := Grow(half, run, actions, s1, Begin(0, job));
    RegisterStats(half, s1, 0, a, w, image);
    var s2 := Resumed(s1, 0, Copying(job));
    run', actions' := Grow(half, run', actions', s2, Stat(0));
    RegisterCopies(half, s2, 0, a, w, image);
    var s3 := Resumed(s2.(objects := s2.objects + {image.canonical}), 0, Promoted(job));
    run', actions' := Grow(half, run', actions', s3, Copy(0));
    assert s3.objects == {image.staging, image.canonical};
    assert s3.requests == s.requests[0 := Promoted(job)];
  }

  /** The states of a registration after its promotion: stored, and done. */
  function Inserted(s: State, a: UUID, w: string, image: Image): State {
    Resumed(
      s.(rows := s.rows[a := Owner(w, Some(image.canonical))], committed := s.committed + {image.canonical}),
      0, Committed(Registration(a, w, image), None))
  }

  lemma Inserting(half: Half, s: State, a: UUID, w: string, image: Image)
    requires s.rows == map[] && s.committed == {} && 0 !in s.requests
    ensures
      var s1 := Resumed(s.(objects := {image.staging, image.canonical}), 0, Promoted(Registration(a, w, image)));
      var s2 := Inserted(s1, a, w, image);
      && Leads(half, s1, s2, Insert(0))
      && Leads(half, s2, Gone(s2, 0), Discard(0, Images.Refused))
  {
    hide Leads, Owner, Images.WalletUnused;
    var s1 := Resumed(s.(objects := {image.staging, image.canonical}), 0, Promoted(Registration(a, w, image)));
    NoWalletsYet(Text.TrimSpace(w));
    RegisterInserts(half, s1, 0, a, w, image);
    RegisterDiscards(half, Inserted(s1, a, w, image), 0, a, w, image);
  }

  lemma Settled(s: State, a: UUID, w: string, image: Image)
    requires s.rows == map[] && s.committed == {} && 0 !in s.requests
    ensures
      var s1 := Resumed(s.(objects := {image.staging, image.canonical}), 0, Promoted(Registration(a, w, image)));
      Gone(Inserted(s1, a, w, image), 0)
      == State(map[a := Owner(w, Some(image.canonical))], {image.staging, image.canonical}, {image.canonical}, s.requests)
  {
    hide Owner;
    var s1 := Resumed(s.(objects := {image.staging, image.canonical}), 0, Promoted(Registration(a, w, image)));
    var last := Gone(Inserted(s1, a, w, image), 0);
    assert last.requests == s.requests;
    assert last.rows == map[a := Owner(w, Some(image.canonical))] && last.committed == {image.canonical};
  }

  /** The first owner registers with the image. */
  lemma Registers(half: Half, run: seq<State>, actions: seq<Action>, s: State, a: UUID, w: string, image: Image)
    returns (run': seq<State>, actions': seq<Action>)
    requires Lax(half, run, actions) && |run| > 0 && run[|run| - 1] == s && 0 !in s.requests
    requires Uploaded(image) && image.canonical != image.staging
    requires s.rows == map[] && s.objects == {image.staging} && s.committed == {}
    requires half == OnlyUnshared ==> s.requests == map[]
    ensures Lax(half, run', actions') && |run'| > 0
    ensures
      run'[|run'| - 1]
      == State(map[a := Owner(w, Some(image.canonical))], {image.staging, image.canonical}, {image.canonical}, s.requests)
  {
    hide Lax, Leads, Owner, Uploaded, Resumed, Gone, Inserted;
    Inserting(half, s, a, w, image);
    Settled(s, a, w, image);
    run', actions' := Promotes(half, run, actions, s, a, w, image);
    var s2 := Inserted(run'[|run'| - 1], a, w, image);
    run', actions' := Grow(half, run', actions', s2, Insert(0));
    run', actions' := Grow(half, run', actions', Gone(s2, 0), Discard(0, Images.Refused));
  }

  /** A second owner, whose stat still finds the object, commits its key before request 0 deletes it. */
  lemma Overtakes(half: Half, run: seq<State>, actions: seq<Action>, s: State, b: UUID, w: string, image: Image)
    returns (run': seq<State>, actions': seq<Action>)
    requires Lax(half, run, actions) && |run| > 0 && run[|run| - 1] == s
    requires Text.TrimSpace(image.canonical) == image.canonical && image.canonical != ""
    requires 0 in s.requests && s.requests[0] == Deleting(image.canonical)
    requires 1 in s.requests && s.requests[1] == Submitted(Registration(b, w, image))
    requires image.canonical in s.objects && b !in s.rows && Images.WalletUnused(s.rows, Text.TrimSpace(w))
    ensures Lax(half, run', actions') && |run'| > 0 && Dangles(run'[|run'| - 1], b)
  {
    hide Lax, Leads, Text.TrimSpace;
    var job := Registration(b, w, image);
    RegisterStats(half, s, 1, b, w, image);
    var s1 := Resumed(s, 1, Promoted(job));
    run', actions' := Grow(half, run, actions, s1, Stat(1));
    RegisterInserts(half, s1, 1, b, w, image);
    var s2 := Resumed(
      s1.(rows := s1.rows[b := Owner(w, Some(image.canonical))], committed := s1.committed + {image.canonical}),
      1, Committed(job, None));
    run', actions' := Grow(half, run', actions', s2, Insert(1));
    OldImageGoes(half, s2, image.canonical);
    run', actions' :=
      Grow(half, run', actions', Gone(s2.(objects := s2.objects - {image.canonical}), 0), DeleteOld(0, Images.Done));
  }

  lemma UploadedKeys(image: Image)
    requires Uploaded(image)
    ensures image.canonical != image.staging
    ensures Text.TrimSpace(image.canonical) == image.canonical && image.canonical != ""
  {
    hide Canonical, Text.TrimSpace;
    CanonicalLeavesStaging(image.staging, Profiles);
  }

  /** Two different wallets, whatever the case they are written in. */
  predicate OtherWallet(v: string, w: string) {
    Text.Lower(Text.TrimSpace(v)) != Text.Lower(Text.TrimSpace(w))
  }

  lemma OthersWalletUnused(a: UUID, v: string, w: string)
    requires OtherWallet(v, w)
    ensures Images.WalletUnused(map[a := Owner(v, None)], Text.TrimSpace(w))
  {
    hide Text.TrimSpace, Text.Lower;
  }

  lemma IndexHeld(run: seq<State>, actions: seq<Action>)
    requires IsRun(run, actions)
    ensures forall i :: 0 <= i < |run| ==> Images.WalletsDiffer(run[i].rows)
  {
    hide IsRun, Images.WalletsDiffer;
    forall i | 0 <= i < |run|
      ensures Images.WalletsDiffer(run[i].rows)
    {
      WalletsOverRun(run, actions, i);
    }
  }

  lemma StartsLax(half: Half, image: Image)
    ensures Lax(half, [Start(image)], [])
  {
  }

  /** A key submitted again while the deletion of its object is pending: no two requests in flight
      ever submit the same key, and still the second owner's image is lost. */
  lemma ResubmissionDangles(a: UUID, b: UUID, v: string, w: string, image: Image)
    returns (run: seq<State>, actions: seq<Action>)
    requires a != b && Uploaded(image) && OtherWallet(v, w)
    ensures IsRun(run, actions) && (forall i :: 0 <= i < |actions| ==> NotShared(run[i], actions[i]))
    ensures forall i :: 0 <= i < |run| ==> Images.WalletsDiffer(run[i].rows)
    ensures |run| > 0 && Dangles(run[|run| - 1], b)
  {
    hide Lax, Leads, Owner, Uploaded, Dangles, Text.TrimSpace, NotShared, IsRun;
    UploadedKeys(image);
    OthersWalletUnused(a, v, w);
    StartsLax(OnlyUnshared, image);
    run, actions := Registers(OnlyUnshared, [Start(image)], [], Start(image), a, v, image);
    var s := run[|run| - 1];
    run, actions := Clears(OnlyUnshared, run, actions, s, a, v, image.canonical);
    s := run[|run| - 1];
    RegisterBegins(OnlyUnshared, s, 1, b, w, image);
    var job := Registration(b, w, image);
    run, actions := Grow(OnlyUnshared, run, actions, Resumed(s, 1, Submitted(job)), Begin(1, job));
    run, actions := Overtakes(OnlyUnshared, run, actions, Resumed(s, 1, Submitted(job)), b, w, image);
    Unfold(OnlyUnshared, run, actions);
    IndexHeld(run, actions);
  }

  lemma Unfold(half: Half, run: seq<State>, actions: seq<Action>)
    requires Lax(half, run, actions)
    ensures IsRun(run, actions)
    ensures forall i :: 0 <= i < |actions| ==> Allowed(half, run[i], actions[i])
  {
    hide Next, Allowed;
  }

  /** A key shared by two requests in flight: no committed key is ever submitted, and still the
      second owner's image is lost. */
  lemma SharingDangles(a: UUID, b: UUID, v: string, w: string, image: Image)
    returns (run: seq<State>, actions: seq<Action>)
    requires a != b && Uploaded(image) && OtherWallet(v, w)
    ensures IsRun(run, actions) && (forall i :: 0 <= i < |actions| ==> NotResubmitted(run[i], actions[i]))
    ensures forall i :: 0 <= i < |run| ==> Images.WalletsDiffer(run[i].rows)
    ensures |run| > 0 && Dangles(run[|run| - 1], b)
  {
    hide Lax, Leads, Owner, Uploaded, Dangles, Text.TrimSpace, NotResubmitted, IsRun;
    UploadedKeys(image);
    OthersWalletUnused(a, v, w);
    StartsLax(OnlyNotResubmitted, image);
    var s := Start(image);
    RegisterBegins(OnlyNotResubmitted, s, 1, b, w, image);
    var job := Registration(b, w, image);
    run, actions := Grow(OnlyNotResubmitted, [s], [], Resumed(s, 1, Submitted(job)), Begin(1, job));
    run, actions := Registers(OnlyNotResubmitted, run, actions, Resumed(s, 1, Submitted(job)), a, v, image);
    run, actions := Clears(OnlyNotResubmitted, run, actions, run[|run| - 1], a, v, image.canonical);
    run, actions := Overtakes(OnlyNotResubmitted, run, actions, run[|run| - 1], b, w, image);
    Unfold(OnlyNotResubmitted, run, actions);
    IndexHeld(run, actions);
  }
}
