/** Any number of CreateMessage and Verify calls interleaved over one store, with expiry, lost
    answers and calls that stop anywhere. */
module SiweRuns {
  import opened Options
  import opened MessageCache
  import opened Siwe
  import Text

  /** A stored message, numbered by the write that stored it; the number only serves the proof. */
  datatype Entry = Entry(message: string, serial: nat)

  datatype Issue = Issue(nonce: string, message: string)

  /** A sign-in that succeeded, with the number of the message it consumed. */
  datatype SignIn = SignIn(nonce: string, message: string, signature: string, serial: nat)

  datatype Call =
      /** The checks before the store have passed. */
    | Checked(message: string, signature: string, nonce: string)
      /** The consume step returned an entry. */
    | Consumed(message: string, signature: string, nonce: string, entry: Entry)

  datatype State = State(
    entries: map<string, Entry>,
    issued: seq<Issue>,
    signIns: seq<SignIn>,
    calls: map<nat, Call>)

  datatype Config = Config(lib: Library, auth: AuthConfig, keyPrefix: string)

  datatype Action =
      /** CreateMessage writes its message; the caller may or may not learn of it. */
    | Store(nonce: string, message: string)
    | Expire(key: string)
      /** Verify is called; a rejection before the consume step ends it here. */
    | Call(pid: nat, message: string, signature: string)
    | Consume(pid: nat)
    | Finish(pid: nat)
      /** The call errs or the process dies; a consume whose answer is lost is Consume, then Abandon. */
    | Abandon(pid: nat)

  predicate Renders(cfg: Config, nonce: string, message: string) {
    var parsed := cfg.lib.parse(message);
    parsed.Some? && parsed.value.nonce == nonce
  }

  predicate Next(cfg: Config, s: State, s': State, a: Action) {
    match a
    case Store(nonce, message) =>
      && Renders(cfg, nonce, message)
      && var key := NonceKey(cfg.keyPrefix, nonce);
      && key.Ok?
      && s' == s.(entries := s.entries[key.value := Entry(message, |s.issued|)], issued := s.issued + [Issue(nonce, message)])
    case Expire(key) =>
      s' == s.(entries := s.entries - {key})
    case Call(pid, message, signature) =>
      && pid !in s.calls
      && var checked := Precheck(cfg.lib, cfg.auth, message, signature);
      s' == if checked.Ok? then s.(calls := s.calls[pid := Checked(message, signature, checked.value.nonce)]) else s
    case Consume(pid) =>
      && pid in s.calls && s.calls[pid].Checked?
      && var Checked(message, signature, nonce) := s.calls[pid];
      && var key := NonceKey(cfg.keyPrefix, nonce);
      s' == if key.Ok? && key.value in s.entries
            then s.(entries := s.entries - {key.value},
                    calls := s.calls[pid := Consumed(message, signature, nonce, s.entries[key.value])])
            else s.(calls := s.calls - {pid})
    case Finish(pid) =>
      && pid in s.calls && s.calls[pid].Consumed?
      && var Consumed(message, signature, nonce, entry) := s.calls[pid];
      && var ended := s.(calls := s.calls - {pid});
      s' == if entry.message == message
            then ended.(signIns := s.signIns + [SignIn(nonce, message, signature, entry.serial)]) else ended
    case Abandon(pid) =>
      pid in s.calls && s' == s.(calls := s.calls - {pid})
  }

  predicate IsRun(cfg: Config, run: seq<State>, actions: seq<Action>) {
    && |run| == |actions| + 1
    && run[0] == State(map[], [], [], map[])
    && forall i :: 0 <= i < |actions| ==> Next(cfg, run[i], run[i + 1], actions[i])
  }

  // ---- The invariant: every number is in one place ----

  predicate EntryInv(s: State, entry: Entry) {
    entry.serial < |s.issued| && s.issued[entry.serial].message == entry.message
  }

  /** The SIWE library read the message as one for this service and took the signature. */
  predicate Trusted(cfg: Config, nonce: string, message: string, signature: string) {
    && Renders(cfg, nonce, message)
    && cfg.lib.parse(message).value.uri == cfg.auth.uri && cfg.lib.parse(message).value.chainId == cfg.auth.chainId
    && ValidSignature(Text.TrimSpace(signature)) && cfg.lib.accepts(message, Text.TrimSpace(signature))
  }

  predicate CallInv(cfg: Config, s: State, call: Call) {
    && Trusted(cfg, call.nonce, call.message, call.signature)
    && (call.Consumed? ==> EntryInv(s, call.entry))
  }

  predicate SignInInv(cfg: Config, s: State, signIn: SignIn) {
    && Trusted(cfg, signIn.nonce, signIn.message, signIn.signature)
    && signIn.serial < |s.issued| && s.issued[signIn.serial] == Issue(signIn.nonce, signIn.message)
  }

  predicate Sound(cfg: Config, s: State) {
    && (forall i :: 0 <= i < |s.issued| ==> Renders(cfg, s.issued[i].nonce, s.issued[i].message))
    && (forall key :: key in s.entries ==> EntryInv(s, s.entries[key]))
    && (forall pid :: pid in s.calls ==> CallInv(cfg, s, s.calls[pid]))
    && (forall i :: 0 <= i < |s.signIns| ==> SignInInv(cfg, s, s.signIns[i]))
  }

  /** Where a message can be: in the store, in a call that has consumed it, in a sign-in. */
  datatype Place = InStore(key: string) | InCall(pid: nat) | InSignIn(index: nat)

  predicate At(s: State, place: Place, serial: nat) {
    match place
    case InStore(key) => key in s.entries && s.entries[key].serial == serial
    case InCall(pid) => pid in s.calls && s.calls[pid].Consumed? && s.calls[pid].entry.serial == serial
    case InSignIn(index) => index < |s.signIns| && s.signIns[index].serial == serial
  }

  ghost predicate Unique(s: State) {
    forall p: Place, q: Place, serial :: At(s, p, serial) && At(s, q, serial) ==> p == q
  }

  lemma PrecheckRenders(cfg: Config, message: string, signature: string)
    ensures var checked := Precheck(cfg.lib, cfg.auth, message, signature);
            checked.Ok? ==> Trusted(cfg, checked.value.nonce, message, signature)
  {
    hide Text.TrimSpace, ValidSignature;
  }

  lemma StoreKeepsSound(cfg: Config, s: State, s': State, a: Action)
    requires Sound(cfg, s) && a.Store? && Next(cfg, s, s', a)
    ensures Sound(cfg, s')
  {
    hide NonceKey, Renders, Trusted;
    forall pid | pid in s'.calls
      ensures CallInv(cfg, s', s'.calls[pid])
    {
      assert CallInv(cfg, s, s.calls[pid]);
    }
    forall i | 0 <= i < |s'.signIns|
      ensures SignInInv(cfg, s', s'.signIns[i])
    {
      assert SignInInv(cfg, s, s.signIns[i]);
    }
  }

  lemma MoveKeepsSound(cfg: Config, s: State, s': State, a: Action)
    requires Sound(cfg, s) && !a.Store? && Next(cfg, s, s', a)
    ensures Sound(cfg, s')
  {
    hide NonceKey, Precheck, ValidSignature, Text.TrimSpace;
    if a.Call? {
      PrecheckRenders(cfg, a.message, a.signature);
    } else if a.Finish? || a.Consume? {
      assert CallInv(cfg, s, s.calls[a.pid]);
    }
  }

  /** The next number is nowhere yet. */
  lemma NextIsNew(cfg: Config, s: State, place: Place)
    requires Sound(cfg, s)
    ensures !At(s, place, |s.issued|)
  {
    hide Renders, Trusted;
    if place.InCall? && place.pid in s.calls {
      assert CallInv(cfg, s, s.calls[place.pid]);
    } else if place.InSignIn? && place.index < |s.signIns| {
      assert SignInInv(cfg, s, s.signIns[place.index]);
    }
  }

  lemma StoreKeepsUnique(cfg: Config, s: State, s': State, a: Action)
    requires Sound(cfg, s) && Unique(s) && a.Store? && Next(cfg, s, s', a)
    ensures Unique(s')
  {
    hide Sound, Renders, NonceKey;
    var stored := InStore(NonceKey(cfg.keyPrefix, a.nonce).value);
    forall p: Place, q: Place, serial | At(s', p, serial) && At(s', q, serial)
      ensures p == q
    {
      NextIsNew(cfg, s, p);
      NextIsNew(cfg, s, q);
      assert p != stored ==> At(s, p, serial);
      assert q != stored ==> At(s, q, serial);
    }
  }

  /** A message moves from the store to a call, and from a call to a sign-in. */
  function Before(a: Action, s: State, key: string, place: Place): Place {
    if a.Consume? && place == InCall(a.pid) then InStore(key)
    else if a.Finish? && place == InSignIn(|s.signIns|) then InCall(a.pid)
    else place
  }

  lemma MoveKeepsUnique(cfg: Config, s: State, s': State, a: Action)
    requires Unique(s) && !a.Store? && Next(cfg, s, s', a)
    ensures Unique(s')
  {
    hide Renders, NonceKey, Precheck, Unique;
    var key := if a.Consume? && NonceKey(cfg.keyPrefix, s.calls[a.pid].nonce).Ok?
      then NonceKey(cfg.keyPrefix, s.calls[a.pid].nonce).value else "";
    forall p: Place, q: Place, serial | At(s', p, serial) && At(s', q, serial)
      ensures p == q
    {
      WasBefore(cfg, s, s', a, key, p, serial);
      WasBefore(cfg, s, s', a, key, q, serial);
      SamePlace(s, Before(a, s, key, p), Before(a, s, key, q), serial);
    }
    Collect(s');
  }

  lemma SamePlace(s: State, p: Place, q: Place, serial: nat)
    requires Unique(s) && At(s, p, serial) && At(s, q, serial)
    ensures p == q
  {
  }

  lemma Collect(s: State)
    requires forall p: Place, q: Place, serial :: At(s, p, serial) && At(s, q, serial) ==> p == q
    ensures Unique(s)
  {
  }

  lemma WasBefore(cfg: Config, s: State, s': State, a: Action, key: string, place: Place, serial: nat)
    requires !a.Store? && Next(cfg, s, s', a) && At(s', place, serial)
    requires
      a.Consume? && NonceKey(cfg.keyPrefix, s.calls[a.pid].nonce).Ok?
      ==> key == NonceKey(cfg.keyPrefix, s.calls[a.pid].nonce).value
    ensures At(s, Before(a, s, key, place), serial)
    ensures a.Consume? && NonceKey(cfg.keyPrefix, s.calls[a.pid].nonce).Ok? ==> place != InStore(key)
    ensures a.Finish? ==> place != InCall(a.pid)
  {
    hide Renders, NonceKey, Precheck;
  }

  lemma {:induction false} InvOverRun(cfg: Config, run: seq<State>, actions: seq<Action>, i: nat)
    requires IsRun(cfg, run, actions) && i < |run|
    ensures Sound(cfg, run[i]) && Unique(run[i])
  {
    hide Next;
    if i > 0 {
      InvOverRun(cfg, run, actions, i - 1);
      if actions[i - 1].Store? {
        StoreKeepsSound(cfg, run[i - 1], run[i], actions[i - 1]);
        StoreKeepsUnique(cfg, run[i - 1], run[i], actions[i - 1]);
      } else {
        MoveKeepsSound(cfg, run[i - 1], run[i], actions[i - 1]);
        MoveKeepsUnique(cfg, run[i - 1], run[i], actions[i - 1]);
      }
    }
  }

  // ---- What holds at every point of every run ----

  /** Every successful sign-in presented, byte for byte, a message issued for its nonce. */
  lemma SignInsWereIssued(cfg: Config, run: seq<State>, actions: seq<Action>, i: nat, k: nat)
    requires IsRun(cfg, run, actions) && i < |run| && k < |run[i].signIns|
    ensures Issue(run[i].signIns[k].nonce, run[i].signIns[k].message) in run[i].issued
  {
    hide IsRun, Trusted, Unique;
    InvOverRun(cfg, run, actions, i);
    assert SignInInv(cfg, run[i], run[i].signIns[k]);
  }

  /** Every successful sign-in carried a signature that the SIWE library took for its message, which
      was written for this service. */
  lemma SignInsWereSigned(cfg: Config, run: seq<State>, actions: seq<Action>, i: nat, k: nat)
    requires IsRun(cfg, run, actions) && i < |run| && k < |run[i].signIns|
    ensures
      var signIn := run[i].signIns[k];
      var parsed := cfg.lib.parse(signIn.message);
      && ValidSignature(Text.TrimSpace(signIn.signature))
      && cfg.lib.accepts(signIn.message, Text.TrimSpace(signIn.signature))
      && parsed.Some? && parsed.value.nonce == signIn.nonce
      && parsed.value.uri == cfg.auth.uri && parsed.value.chainId == cfg.auth.chainId
  {
    hide IsRun, ValidSignature, Unique, Text.TrimSpace;
    InvOverRun(cfg, run, actions, i);
    assert SignInInv(cfg, run[i], run[i].signIns[k]);
  }

  function SignedIn(s: State, nonce: string): set<nat> {
    set i: nat | 0 <= i < |s.signIns| && s.signIns[i].nonce == nonce
  }

  function IssuedFor(s: State, nonce: string): set<nat> {
    set i: nat | 0 <= i < |s.issued| && s.issued[i].nonce == nonce
  }

  /** For each nonce, no more sign-ins succeed than messages were issued. */
  lemma SignInsAtMostIssues(cfg: Config, run: seq<State>, actions: seq<Action>, i: nat, nonce: string)
    requires IsRun(cfg, run, actions) && i < |run|
    ensures |SignedIn(run[i], nonce)| <= |IssuedFor(run[i], nonce)|
  {
    hide IsRun, Renders, Trusted;
    InvOverRun(cfg, run, actions, i);
    var s := run[i];
    assert forall k :: 0 <= k < |s.signIns| ==> SignInInv(cfg, s, s.signIns[k]);
    forall i, j | 0 <= i < j < |s.signIns|
      ensures s.signIns[i].serial != s.signIns[j].serial
    {
      assert At(s, InSignIn(j), s.signIns[j].serial) && At(s, InSignIn(i), s.signIns[i].serial);
    }
    Injects(s.signIns, SignedIn(s, nonce), IssuedFor(s, nonce));
  }

  /** The message numbers map sign-ins one to one into issues. */
  lemma {:induction false} Injects(signIns: seq<SignIn>, from: set<nat>, into: set<nat>)
    requires forall i, j :: 0 <= i < j < |signIns| ==> signIns[i].serial != signIns[j].serial
    requires forall i :: i in from ==> 0 <= i < |signIns| && signIns[i].serial in into
    ensures |from| <= |into|
    decreases |from|
  {
    if from != {} {
      var i :| i in from;
      var serial := signIns[i].serial;
      Injects(signIns, from - {i}, into - {serial});
      assert |from - {i}| == |from| - 1 && |into - {serial}| == |into| - 1;
    }
  }

  /** A call rejected before the consume step changes nothing at all. */
  lemma RejectionLeavesStore(cfg: Config, s: State, s': State, pid: nat, message: string, signature: string)
    requires Next(cfg, s, s', Call(pid, message, signature))
    requires Precheck(cfg.lib, cfg.auth, message, signature).Err?
    ensures s' == s
  {
    hide Precheck;
  }

  // ---- A call that is not interrupted ----

  /** The store as Verify sees it. */
  function Messages(entries: map<string, Entry>): map<string, string> {
    map key | key in entries :: entries[key].message
  }

  /** Call, consume and finish, without another step in between, have the effect and the answer of
      Verify run alone. */
  lemma VerifyIsSerial(cfg: Config, s: State, pid: nat, message: string, signature: string) returns (s1: State, s2: State, s3: State)
    requires pid !in s.calls
    ensures Next(cfg, s, s1, Call(pid, message, signature))
    ensures s2 == s1 || Next(cfg, s1, s2, Consume(pid))
    ensures s3 == s2 || Next(cfg, s2, s3, Finish(pid))
    ensures pid !in s3.calls && s3.issued == s.issued
    ensures
      var (after, r) := VerifyEffect(cfg.lib, cfg.auth, cfg.keyPrefix, Messages(s.entries), message, signature, TokenIssued);
      && Messages(s3.entries) == after
      && (r.Ok? <==> |s3.signIns| == |s.signIns| + 1) && (r.Err? <==> s3.signIns == s.signIns)
  {
    hide Precheck, NonceKey;
    var checked := Precheck(cfg.lib, cfg.auth, message, signature);
    if checked.Err? {
      s1, s2, s3 := s, s, s;
    } else {
      var nonce := checked.value.nonce;
      var key := NonceKey(cfg.keyPrefix, nonce);
      s1 := s.(calls := s.calls[pid := Checked(message, signature, nonce)]);
      if key.Err? || key.value !in s.entries {
        s2 := s1.(calls := s1.calls - {pid});
        s3 := s2;
      } else {
        var entry := s.entries[key.value];
        s2 := s1.(entries := s.entries - {key.value}, calls := s1.calls[pid := Consumed(message, signature, nonce, entry)]);
        s3 := s2.(calls := s2.calls - {pid});
        if entry.message == message {
          s3 := s3.(signIns := s.signIns + [SignIn(nonce, message, signature, entry.serial)]);
        }
        assert Messages(s2.entries) == Messages(s.entries) - {key.value};
      }
    }
  }
}
