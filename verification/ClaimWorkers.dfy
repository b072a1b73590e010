/**
 The claim side of one ProvisionController: its rate-limited work queue, the claimsInProgress map and
 any number of workers and informer handlers, interleaved at every queue, map and limiter operation.
 */
module ClaimWorkers {
  import opened Common
  import opened WorkQueue

  type Counts = map<string, nat>

  /** NumRequeues of the shared limiter. */
  function Count(counts: Counts, k: string): nat {
    if k in counts then counts[k] else 0
  }

  // ---------------------------------------------------------------- the result of one sync

  datatype Status = Finished | Background | NoChange

  datatype Outcome = Outcome(status: Status, failed: bool)

  datatype ProvisionError = NoError | Ignored | Failed

  /** What the API server, the caches and the provisioner answer during one syncClaim. */
  datatype Answers = Answers(
    bound: bool, classFound: bool, qualifies: bool, forUs: bool,
    pvExists: bool, refOk: bool, modeOk: bool, classFoundAgain: bool, classForUs: bool, nodeFound: bool,
    error: ProvisionError, extStatus: Status, stored: bool)

  /** syncClaim with shouldProvision and provisionClaimOperation; `ext` when the provisioner has ProvisionExt. */
  function SyncClaim(ext: bool, a: Answers): Outcome {
    if a.bound then Outcome(Finished, false)
    else if !a.classFound then Outcome(Finished, true)
    else if !a.qualifies || !a.forUs then Outcome(Finished, false)
    else if a.pvExists then Outcome(Finished, false)
    else if !a.refOk then Outcome(NoChange, false)
    else if !a.modeOk then Outcome(Finished, false)
    else if !a.classFoundAgain then Outcome(Finished, true)
    else if !a.classForUs then Outcome(Finished, false)
    else if !a.nodeFound then Outcome(NoChange, true)
    else match a.error
      case Ignored => Outcome(Finished, false)
      case Failed => Outcome(if ext then a.extStatus else Finished, true)
      case NoError => Outcome(Finished, !a.stored)
  }

  /** The claim is ours to provision: unbound, of a known class, for this node and this provisioner. */
  predicate Wanted(a: Answers) {
    !a.bound && a.classFound && a.qualifies && a.forUs
  }

  /** Nothing stands between a wanted claim and the look at its class in provisionClaimOperation. */
  predicate Unhindered(a: Answers) {
    Wanted(a) && !a.pvExists && a.refOk && a.modeOk
  }

  /** syncClaim gets as far as the call of Provision. */
  predicate Provisions(a: Answers) {
    Unhindered(a) && a.classFoundAgain && a.classForUs && a.nodeFound
  }

  /**
   What an outcome means. Where Provision is called, failure is its error, or without one a PV that could not be
   stored; before, it is a class that cannot be read or a node that is gone. NoChange and Background are reported
   in the cases given, and nothing is left to do for a claim that is bound, foreign, ignored or provisioned.
   */
  lemma SyncClaimMeans(ext: bool, a: Answers)
    ensures Provisions(a) ==>
              (SyncClaim(ext, a).failed <==> a.error == Failed || (a.error == NoError && !a.stored))
    ensures !Provisions(a) ==>
              (SyncClaim(ext, a).failed <==>
               || (!a.bound && !a.classFound)
               || (Unhindered(a) && (!a.classFoundAgain || (a.classForUs && !a.nodeFound))))
    ensures SyncClaim(ext, a).status == Background <==>
            Provisions(a) && a.error == Failed && ext && a.extStatus == Background
    ensures SyncClaim(ext, a).status == NoChange <==>
            || (Wanted(a) && !a.pvExists && !a.refOk)
            || (Unhindered(a) && a.classFoundAgain && a.classForUs && !a.nodeFound)
            || (Provisions(a) && a.error == Failed && ext && a.extStatus == NoChange)
  {
  }

  // ---------------------------------------------------------------- the state machine

  /**
   `threshold` is failedProvisionThreshold and `deleteThreshold` is failedDeleteThreshold; the two key sets
   are what the two queues are fed with.
   */
  datatype Config = Config(
    threshold: nat, deleteThreshold: nat, ext: bool, claimKeys: set<string>, volumeKeys: set<string>)

  type ClaimObj = string

  /** Where the worker that holds a key stands in processNextClaimWorkItem. */
  datatype Phase = Got | Syncing(claim: ClaimObj) | Failing | Retrying | GivingUp | Succeeding | Forgotten | Finishing

  /** History: what decided about a key. */
  datatype Entry =
    | Result(key: string, claim: ClaimObj, outcome: Outcome)
    | GaveUp(key: string)
    | Readded(key: string)
    | Forgot(key: string)

  /**
   `workers` holds the workers by the key they are processing: Get never returns a key that is being
   processed. `adding` is a claim whose handler has passed its NumRequeues check and not yet called Add.
   `deleters` are the volume workers that have passed theirs and not yet called AddRateLimited, with their
   keys; forgetVolume can hand a volume key to a second worker, so they have numbers of their own.
   */
  datatype State = State(
    claims: Queue,
    counts: Counts,
    inProgress: map<string, ClaimObj>,
    workers: map<string, Phase>,
    adding: Option<string>,
    deleters: map<nat, string>,
    log: seq<Entry>)

  function Init(): State {
    State(Queue({}, {}, {}), map[], map[], map[], None, map[], [])
  }

  datatype Lookup = IndexError | Cached(claim: ClaimObj) | Absent

  datatype Event =
    | CheckEnqueue(key: string)
    | Enqueue
    | Get(key: string)
    | Find(key: string, lookup: Lookup)
    | Sync(key: string, answers: Answers)
    | Decide(key: string)
    | Retry(key: string)
    | GiveUp(key: string)
    | Forget(key: string)
    | DropClaim(key: string)
    | Finish(key: string)
    | Fire(key: string)
    | VolumeDecide(t: nat, key: string)
    | VolumeRetry(t: nat)
    | VolumeForget(key: string)

  function At(s: State, k: string, phase: Phase): State {
    s.(workers := s.workers[k := phase])
  }

  predicate IsAt(s: State, k: string, phase: Phase) {
    k in s.workers && s.workers[k] == phase
  }

  /** syncClaimHandler up to the call of syncClaim. */
  function DoFind(s: State, k: string, lookup: Lookup): Option<State> {
    if !IsAt(s, k, Got) then None
    else match lookup
      case IndexError => Some(At(s, k, Failing))
      case Cached(claim) => Some(At(s, k, Syncing(claim)))
      case Absent =>
        if k in s.inProgress then Some(At(s, k, Syncing(s.inProgress[k]))) else Some(At(s, k, Succeeding))
  }

  /** claimsInProgress after a sync, as syncClaimHandler leaves it. */
  function Recorded(inProgress: map<string, ClaimObj>, k: string, claim: ClaimObj, o: Outcome): map<string, ClaimObj> {
    if !o.failed || o.status == Finished then inProgress - {k}
    else if o.status == Background then inProgress[k := claim]
    else inProgress
  }

  function DoSync(cfg: Config, s: State, k: string, a: Answers): Option<State> {
    if k !in s.workers || !s.workers[k].Syncing? then None
    else
      var o := SyncClaim(cfg.ext, a);
      Some(At(s, k, if o.failed then Failing else Succeeding)
           .(inProgress := Recorded(s.inProgress, k, s.workers[k].claim, o),
             log := s.log + [Result(k, s.workers[k].claim, o)]))
  }

  function DoDecide(cfg: Config, s: State, k: string): Option<State> {
    if !IsAt(s, k, Failing) then None
    else if cfg.threshold == 0 || Count(s.counts, k) < cfg.threshold then Some(At(s, k, Retrying))
    else Some(At(s, k, GivingUp))
  }

  /** AddRateLimited: the limiter counts the failure and the key waits for its delay. */
  function DoRetry(s: State, k: string): Option<State> {
    if !IsAt(s, k, Retrying) then None
    else Some(At(s, k, Finishing).(claims := s.claims.AddAfter(k),
                                   counts := s.counts[k := Count(s.counts, k) + 1], log := s.log + [Readded(k)]))
  }

  function DoGiveUp(s: State, k: string): Option<State> {
    if !IsAt(s, k, GivingUp) then None
    else Some(At(s, k, Finishing).(inProgress := s.inProgress - {k}, log := s.log + [GaveUp(k)]))
  }

  function DoForget(s: State, k: string): Option<State> {
    if !IsAt(s, k, Succeeding) then None
    else Some(At(s, k, Forgotten).(counts := s.counts - {k}, log := s.log + [Forgot(k)]))
  }

  function DoDropClaim(s: State, k: string): Option<State> {
    if !IsAt(s, k, Forgotten) then None else Some(At(s, k, Finishing).(inProgress := s.inProgress - {k}))
  }

  function DoFinish(s: State, k: string): Option<State> {
    if !IsAt(s, k, Finishing) then None
    else Some(s.(workers := s.workers - {k}, claims := s.claims.Done(k)))
  }

  /** enqueueClaim is two operations: the NumRequeues check, and later Add. */
  function DoCheckEnqueue(cfg: Config, s: State, k: string): Option<State> {
    if k !in cfg.claimKeys || s.adding.Some? then None
    else if Count(s.counts, k) == 0 then Some(s.(adding := Some(k)))
    else Some(s)
  }

  function DoEnqueue(s: State): Option<State> {
    if s.adding.None? then None else Some(s.(adding := None, claims := s.claims.Add(s.adding.value)))
  }

  function DoGet(s: State, k: string): Option<State> {
    if k !in s.claims.dirty || k in s.claims.processing then None
    else Some(At(s, k, Got).(claims := s.claims.Get(k)))
  }

  function DoFire(s: State, k: string): Option<State> {
    if k !in s.claims.delayed then None else Some(s.(claims := s.claims.Fire(k)))
  }

  /** processNextVolumeWorkItem after a failure. The volume queue shares the limiter, not the sets. */
  function DoVolumeDecide(cfg: Config, s: State, t: nat, k: string): Option<State> {
    if k !in cfg.volumeKeys || t in s.deleters then None
    else if cfg.deleteThreshold == 0 || Count(s.counts, k) < cfg.deleteThreshold
    then Some(s.(deleters := s.deleters[t := k]))
    else Some(s)
  }

  function DoVolumeRetry(s: State, t: nat): Option<State> {
    if t !in s.deleters then None
    else
      var k := s.deleters[t];
      Some(s.(deleters := s.deleters - {t}, counts := s.counts[k := Count(s.counts, k) + 1]))
  }

  /** After a success, and in forgetVolume. */
  function DoVolumeForget(cfg: Config, s: State, k: string): Option<State> {
    if k !in cfg.volumeKeys then None else Some(s.(counts := s.counts - {k}))
  }

  function Step(cfg: Config, s: State, e: Event): Option<State> {
    match e
    case CheckEnqueue(k) => DoCheckEnqueue(cfg, s, k)
    case Enqueue => DoEnqueue(s)
    case Get(k) => DoGet(s, k)
    case Find(k, lookup) => DoFind(s, k, lookup)
    case Sync(k, a) => DoSync(cfg, s, k, a)
    case Decide(k) => DoDecide(cfg, s, k)
    case Retry(k) => DoRetry(s, k)
    case GiveUp(k) => DoGiveUp(s, k)
    case Forget(k) => DoForget(s, k)
    case DropClaim(k) => DoDropClaim(s, k)
    case Finish(k) => DoFinish(s, k)
    case Fire(k) => DoFire(s, k)
    case VolumeDecide(t, k) => DoVolumeDecide(cfg, s, t, k)
    case VolumeRetry(t) => DoVolumeRetry(s, t)
    case VolumeForget(k) => DoVolumeForget(cfg, s, k)
  }

  /** The state after more events, None when one of them is not enabled. */
  function Exec(cfg: Config, s: State, es: seq<Event>): Option<State>
    decreases |es|
  {
    if es == [] then Some(s)
    else
      var next := Step(cfg, s, es[0]);
      if next.None? then None else Exec(cfg, next.value, es[1..])
  }

  // ---------------------------------------------------------------- the history as a specification

  /** An entry that settles whether a claim is in progress: neither NoChange with an error nor bookkeeping. */
  predicate Decisive(x: Entry, k: string) {
    x.key == k && (x.GaveUp? || (x.Result? && !(x.outcome.failed && x.outcome.status == NoChange)))
  }

  function LastWord(log: seq<Entry>, k: string): Option<Entry> {
    if log == [] then None
    else if Decisive(log[|log| - 1], k) then Some(log[|log| - 1])
    else LastWord(log[..|log| - 1], k)
  }

  /** The last decisive entry says that provisioning goes on in the background. */
  predicate InBackground(log: seq<Entry>, k: string) {
    LastWord(log, k).Some? && LastWord(log, k).value.Result?
    && LastWord(log, k).value.outcome == Outcome(Background, true)
  }

  /** Rate-limited re-adds since the key was last forgotten. */
  function Readds(log: seq<Entry>, k: string): nat {
    if log == [] then 0
    else
      var x, rest := log[|log| - 1], Readds(log[..|log| - 1], k);
      if x == Readded(k) then rest + 1 else if x == Forgot(k) then 0 else rest
  }

  lemma Appended(log: seq<Entry>, x: Entry, k: string)
    ensures LastWord(log + [x], k) == if Decisive(x, k) then Some(x) else LastWord(log, k)
    ensures Readds(log + [x], k) ==
              if x == Readded(k) then Readds(log, k) + 1 else if x == Forgot(k) then 0 else Readds(log, k)
  {
    assert (log + [x])[..|log + [x]| - 1] == log;
  }

  // ---------------------------------------------------------------- what every step keeps, key by key

  /** A claim in progress is waiting, queued or held by a worker that has not decided about it yet. */
  predicate Awaited(s: State, k: string) {
    && (k in s.claims.processing <==> k in s.workers)
    && (k in s.inProgress ==> s.claims.Has(k))
    && (k in s.workers && s.workers[k].Finishing? && k in s.inProgress ==>
          k in s.claims.dirty || k in s.claims.delayed)
    && (k in s.workers && (s.workers[k].Succeeding? || s.workers[k].Forgotten?) ==> k !in s.inProgress)
  }

  /** The map agrees with the history, and holds nothing without ProvisionExt. */
  predicate Explained(cfg: Config, s: State, k: string) {
    && (k in s.inProgress <==> InBackground(s.log, k))
    && (k in s.inProgress ==> s.inProgress[k] == LastWord(s.log, k).value.claim)
    && (!cfg.ext ==> k !in s.inProgress)
  }

  /** No volume worker is about to count against the key. */
  ghost predicate Untouched(s: State, k: string) {
    forall t | t in s.deleters :: s.deleters[t] != k
  }

  /** The failure count is the number of re-adds, and stays below the threshold until the decision. */
  ghost predicate Bounded(cfg: Config, s: State, k: string) {
    && Untouched(s, k)
    && Count(s.counts, k) == Readds(s.log, k)
    && (cfg.threshold > 0 ==> Count(s.counts, k) <= cfg.threshold)
    && (cfg.threshold > 0 && IsAt(s, k, Retrying) ==> Count(s.counts, k) < cfg.threshold)
    && (IsAt(s, k, GivingUp) ==> Count(s.counts, k) >= cfg.threshold > 0)
  }

  lemma AwaitedWork(cfg: Config, s: State, e: Event, s': State, k: string)
    requires Awaited(s, k) && Step(cfg, s, e) == Some(s')
    requires e.Find? || e.Sync? || e.Decide? || e.Retry? || e.GiveUp? || e.Forget?
    ensures Awaited(s', k)
  {
  }

  lemma AwaitedQueue(cfg: Config, s: State, e: Event, s': State, k: string)
    requires Awaited(s, k) && Step(cfg, s, e) == Some(s')
    requires !(e.Find? || e.Sync? || e.Decide? || e.Retry? || e.GiveUp? || e.Forget?)
    ensures Awaited(s', k)
  {
  }

  lemma AwaitedStep(cfg: Config, s: State, e: Event, s': State, k: string)
    requires Awaited(s, k) && Step(cfg, s, e) == Some(s')
    ensures Awaited(s', k)
  {
    if e.Find? || e.Sync? || e.Decide? || e.Retry? || e.GiveUp? || e.Forget? {
      AwaitedWork(cfg, s, e, s', k);
    } else {
      AwaitedQueue(cfg, s, e, s', k);
    }
  }

  lemma ExplainedSync(cfg: Config, s: State, j: string, a: Answers, s': State, k: string)
    requires Explained(cfg, s, k) && DoSync(cfg, s, j, a) == Some(s')
    ensures Explained(cfg, s', k)
  {
    SyncClaimMeans(cfg.ext, a);
    Appended(s.log, Result(j, s.workers[j].claim, SyncClaim(cfg.ext, a)), k);
  }

  lemma ExplainedLogged(cfg: Config, s: State, j: string, s': State, k: string)
    requires Explained(cfg, s, k)
    requires DoRetry(s, j) == Some(s') || DoGiveUp(s, j) == Some(s') || DoForget(s, j) == Some(s')
    ensures Explained(cfg, s', k)
  {
    Appended(s.log, Readded(j), k);
    Appended(s.log, GaveUp(j), k);
    Appended(s.log, Forgot(j), k);
  }

  /** The other events change neither the log nor the map, or only drop a claim that is not in it. */
  lemma Unlogged(cfg: Config, s: State, e: Event, s': State, k: string)
    requires Awaited(s, k) && Step(cfg, s, e) == Some(s')
    requires !(e.Sync? || e.Retry? || e.GiveUp? || e.Forget?)
    ensures s'.log == s.log && (k in s'.inProgress <==> k in s.inProgress)
    ensures k in s.inProgress ==> s'.inProgress[k] == s.inProgress[k]
  {
  }

  lemma ExplainedStep(cfg: Config, s: State, e: Event, s': State, k: string)
    requires Awaited(s, k) && Explained(cfg, s, k) && Step(cfg, s, e) == Some(s')
    ensures Explained(cfg, s', k)
  {
    if e.Sync? {
      ExplainedSync(cfg, s, e.key, e.answers, s', k);
    } else if e.Retry? || e.GiveUp? || e.Forget? {
      ExplainedLogged(cfg, s, e.key, s', k);
    } else {
      Unlogged(cfg, s, e, s', k);
    }
  }

  lemma BoundedSync(cfg: Config, s: State, j: string, a: Answers, s': State, k: string)
    requires Bounded(cfg, s, k) && DoSync(cfg, s, j, a) == Some(s')
    ensures Bounded(cfg, s', k)
  {
    Appended(s.log, Result(j, s.workers[j].claim, SyncClaim(cfg.ext, a)), k);
  }

  lemma BoundedRetry(cfg: Config, s: State, j: string, s': State, k: string)
    requires Bounded(cfg, s, k) && DoRetry(s, j) == Some(s')
    ensures Bounded(cfg, s', k)
  {
    Appended(s.log, Readded(j), k);
  }

  lemma BoundedEnd(cfg: Config, s: State, j: string, s': State, k: string)
    requires Bounded(cfg, s, k) && (DoGiveUp(s, j) == Some(s') || DoForget(s, j) == Some(s'))
    ensures Bounded(cfg, s', k)
  {
    Appended(s.log, GaveUp(j), k);
    Appended(s.log, Forgot(j), k);
  }

  lemma BoundedVolume(cfg: Config, s: State, e: Event, s': State, k: string)
    requires Bounded(cfg, s, k) && k !in cfg.volumeKeys && Step(cfg, s, e) == Some(s')
    requires e.VolumeDecide? || e.VolumeRetry? || e.VolumeForget?
    ensures Bounded(cfg, s', k)
  {
    assert s'.log == s.log && Count(s'.counts, k) == Count(s.counts, k);
  }

  lemma BoundedDecide(cfg: Config, s: State, j: string, s': State, k: string)
    requires Bounded(cfg, s, k) && DoDecide(cfg, s, j) == Some(s')
    ensures Bounded(cfg, s', k)
  {
  }

  lemma BoundedFind(cfg: Config, s: State, j: string, lookup: Lookup, s': State, k: string)
    requires Bounded(cfg, s, k) && DoFind(s, j, lookup) == Some(s')
    ensures Bounded(cfg, s', k)
  {
  }

  lemma BoundedQueue(cfg: Config, s: State, e: Event, s': State, k: string)
    requires Bounded(cfg, s, k) && Step(cfg, s, e) == Some(s')
    requires e.CheckEnqueue? || e.Enqueue? || e.Get? || e.DropClaim? || e.Finish? || e.Fire?
    ensures Bounded(cfg, s', k)
  {
    assert s'.log == s.log && s'.counts == s.counts && s'.deleters == s.deleters;
  }

  lemma BoundedStep(cfg: Config, s: State, e: Event, s': State, k: string)
    requires Bounded(cfg, s, k) && k !in cfg.volumeKeys && Step(cfg, s, e) == Some(s')
    ensures Bounded(cfg, s', k)
  {
    match e
    case Sync(j, a) => BoundedSync(cfg, s, j, a, s', k);
    case Retry(j) => BoundedRetry(cfg, s, j, s', k);
    case GiveUp(j) => BoundedEnd(cfg, s, j, s', k);
    case Forget(j) => BoundedEnd(cfg, s, j, s', k);
    case VolumeDecide(_, _) => BoundedVolume(cfg, s, e, s', k);
    case VolumeRetry(_) => BoundedVolume(cfg, s, e, s', k);
    case VolumeForget(_) => BoundedVolume(cfg, s, e, s', k);
    case Find(j, lookup) => BoundedFind(cfg, s, j, lookup, s', k);
    case Decide(j) => BoundedDecide(cfg, s, j, s', k);
    case _ => BoundedQueue(cfg, s, e, s', k);
  }

  lemma {:induction false} AwaitedAlways(cfg: Config, s: State, es: seq<Event>, s': State, k: string)
    requires Awaited(s, k) && Explained(cfg, s, k) && Exec(cfg, s, es) == Some(s')
    ensures Awaited(s', k) && Explained(cfg, s', k)
    decreases |es|
  {
    if es != [] {
      var next := Step(cfg, s, es[0]).value;
      AwaitedStep(cfg, s, es[0], next, k);
      ExplainedStep(cfg, s, es[0], next, k);
      AwaitedAlways(cfg, next, es[1..], s', k);
    }
  }

  lemma {:induction false} BoundedAlways(cfg: Config, s: State, es: seq<Event>, s': State, k: string)
    requires Bounded(cfg, s, k) && k !in cfg.volumeKeys && Exec(cfg, s, es) == Some(s')
    ensures Bounded(cfg, s', k)
    decreases |es|
  {
    if es != [] {
      var next := Step(cfg, s, es[0]).value;
      BoundedStep(cfg, s, es[0], next, k);
      BoundedAlways(cfg, next, es[1..], s', k);
    }
  }

  // ---------------------------------------------------------------- results over whole runs

  /** Every claim in progress will be handled again, so ignoring its deletion in the informer is safe. */
  lemma InProgressIsQueued(cfg: Config, es: seq<Event>, s: State)
    requires Exec(cfg, Init(), es) == Some(s)
    ensures s.inProgress.Keys <= s.claims.dirty + s.claims.processing + s.claims.delayed
  {
    forall k | k in s.inProgress
      ensures s.claims.Has(k)
    {
      AwaitedAlways(cfg, Init(), es, s, k);
    }
  }

  /** claimsInProgress is a function of the results so far, and holds the claims as they were last synced. */
  lemma InProgressIsHistory(cfg: Config, es: seq<Event>, s: State, k: string)
    requires Exec(cfg, Init(), es) == Some(s)
    ensures k in s.inProgress <==> InBackground(s.log, k)
    ensures k in s.inProgress ==> s.inProgress[k] == LastWord(s.log, k).value.claim
  {
    AwaitedAlways(cfg, Init(), es, s, k);
  }

  lemma NothingInProgressWithoutExt(cfg: Config, es: seq<Event>, s: State)
    requires Exec(cfg, Init(), es) == Some(s) && !cfg.ext
    ensures s.inProgress == map[]
  {
    if k :| k in s.inProgress {
      AwaitedAlways(cfg, Init(), es, s, k);
    }
  }

  lemma {:induction false} AllReaddsCount(log: seq<Entry>, k: string)
    requires Forgot(k) !in log
    ensures multiset(log)[Readded(k)] == Readds(log, k)
  {
    if log != [] {
      var rest := log[..|log| - 1];
      assert log == rest + [log[|log| - 1]];
      AllReaddsCount(rest, k);
    }
  }

  /** A claim that never succeeds is re-added at most `threshold` times. */
  lemma ReaddsBounded(cfg: Config, es: seq<Event>, s: State, k: string)
    requires Exec(cfg, Init(), es) == Some(s) && k !in cfg.volumeKeys && cfg.threshold > 0
    ensures Count(s.counts, k) == Readds(s.log, k) <= cfg.threshold
    ensures Forgot(k) !in s.log ==> multiset(s.log)[Readded(k)] <= cfg.threshold
  {
    BoundedAlways(cfg, Init(), es, s, k);
    if Forgot(k) !in s.log {
      AllReaddsCount(s.log, k);
    }
  }

  /** A worker that will forget the failures of its key, or one that will count another. */
  predicate Settled(s: State, k: string, failed: bool) {
    k in s.workers && k in s.claims.processing
    && (s.workers[k].Finishing?
        || (if failed then s.workers[k].Failing? || s.workers[k].Retrying? || s.workers[k].GivingUp?
            else s.workers[k].Succeeding? || s.workers[k].Forgotten?))
  }

  predicate OfWorker(e: Event) {
    e.Find? || e.Sync? || e.Decide? || e.Retry? || e.GiveUp? || e.Forget? || e.DropClaim? || e.Finish?
  }

  /** Another worker's events leave the worker of `k` where it is. */
  lemma OthersWork(cfg: Config, s: State, e: Event, s': State, k: string)
    requires OfWorker(e) && e.key != k && Step(cfg, s, e) == Some(s') && k in s.workers && k in s.claims.processing
    ensures k in s'.workers && s'.workers[k] == s.workers[k] && k in s'.claims.processing
  {
  }

  lemma SettledWork(cfg: Config, s: State, e: Event, s': State, k: string, failed: bool)
    requires Settled(s, k, failed) && OfWorker(e) && e.key == k && e != Finish(k) && Step(cfg, s, e) == Some(s')
    ensures Settled(s', k, failed) && e != (if failed then Forget(k) else Retry(k))
    ensures !failed ==> e != GiveUp(k)
  {
  }

  lemma SettledStep(cfg: Config, s: State, e: Event, s': State, k: string, failed: bool)
    requires Settled(s, k, failed) && e != Finish(k) && Step(cfg, s, e) == Some(s')
    ensures Settled(s', k, failed) && e != (if failed then Forget(k) else Retry(k))
    ensures !failed ==> e != GiveUp(k)
  {
    if OfWorker(e) && e.key == k {
      SettledWork(cfg, s, e, s', k, failed);
    } else if OfWorker(e) {
      OthersWork(cfg, s, e, s', k);
    }
  }

  lemma {:induction false} SettledUntilDone(cfg: Config, s: State, es: seq<Event>, s': State, k: string, failed: bool)
    requires Settled(s, k, failed) && Finish(k) !in es && Exec(cfg, s, es) == Some(s')
    ensures (if failed then Forget(k) else Retry(k)) !in es && (!failed ==> GiveUp(k) !in es)
    decreases |es|
  {
    if es != [] {
      var next := Step(cfg, s, es[0]).value;
      assert es == [es[0]] + es[1..];
      SettledStep(cfg, s, es[0], next, k, failed);
      SettledUntilDone(cfg, next, es[1..], s', k, failed);
    }
  }

  /**
   In every run, a claim whose PV was provisioned and stored is neither added again nor given up by the worker that
   did it; one whose Provision or store failed is not forgotten by it.
   */
  lemma StoredNeverReadded(cfg: Config, es: seq<Event>, s: State, k: string, a: Answers, s1: State,
                           more: seq<Event>, s': State)
    requires Exec(cfg, Init(), es) == Some(s) && Step(cfg, s, Sync(k, a)) == Some(s1)
    requires Exec(cfg, s1, more) == Some(s') && Finish(k) !in more && Provisions(a)
    ensures a.error == NoError && a.stored ==> Retry(k) !in more && GiveUp(k) !in more
    ensures a.error == Failed || (a.error == NoError && !a.stored) ==> Forget(k) !in more
  {
    AwaitedAlways(cfg, Init(), es, s, k);
    SyncClaimMeans(cfg.ext, a);
    SettledUntilDone(cfg, s1, more, s', k, SyncClaim(cfg.ext, a).failed);
  }

  /** The claim is queued and not being processed, with `n` failures on record. */
  predicate Waiting(s: State, k: string, n: nat) {
    k in s.claims.dirty && k !in s.claims.processing && k !in s.workers && Count(s.counts, k) == n
  }

  lemma Then(cfg: Config, s: State, es: seq<Event>, mid: State, e: Event) returns (es': seq<Event>, s': State)
    requires Exec(cfg, s, es) == Some(mid) && Step(cfg, mid, e).Some?
    ensures es' == es + [e] && Exec(cfg, s, es') == Some(s') && Step(cfg, mid, e) == Some(s')
  {
    ExecThen(cfg, s, es, mid, e);
    es', s' := es + [e], Step(cfg, mid, e).value;
  }

  lemma FirstHalf(cfg: Config, init: State, es: seq<Event>, s: State, k: string, n: nat)
    returns (es': seq<Event>, s': State)
    requires Exec(cfg, init, es) == Some(s) && Waiting(s, k, n) && n < cfg.threshold
    ensures Exec(cfg, init, es') == Some(s') && IsAt(s', k, Retrying) && Count(s'.counts, k) == n
    ensures s'.deleters == s.deleters
  {
    es', s' := Then(cfg, init, es, s, Get(k));
    es', s' := Then(cfg, init, es', s', Find(k, IndexError));
    es', s' := Then(cfg, init, es', s', Decide(k));
  }

  lemma SecondHalf(cfg: Config, init: State, es: seq<Event>, s: State, k: string, n: nat)
    returns (es': seq<Event>, s': State)
    requires Exec(cfg, init, es) == Some(s) && IsAt(s, k, Retrying) && Count(s.counts, k) == n
    ensures Exec(cfg, init, es') == Some(s') && Waiting(s', k, n + 1) && s'.deleters == s.deleters
  {
    es', s' := Then(cfg, init, es, s, Retry(k));
    es', s' := Then(cfg, init, es', s', Finish(k));
    es', s' := Then(cfg, init, es', s', Fire(k));
  }

  lemma {:induction false} FailedRounds(cfg: Config, init: State, es: seq<Event>, s: State, k: string, n: nat)
    returns (es': seq<Event>, s': State)
    requires Exec(cfg, init, es) == Some(s) && Waiting(s, k, n) && n <= cfg.threshold
    ensures Exec(cfg, init, es') == Some(s') && Waiting(s', k, cfg.threshold) && s'.deleters == s.deleters
    decreases cfg.threshold - n
  {
    es', s' := es, s;
    if n < cfg.threshold {
      es', s' := FirstHalf(cfg, init, es, s, k, n);
      es', s' := SecondHalf(cfg, init, es', s', k, n);
      es', s' := FailedRounds(cfg, init, es', s', k, n + 1);
    }
  }

  /**
   A volume worker passes its check while the key has no failures. The claim with that key then fails up
   to its own threshold before the volume worker counts its failure as well.
   */
  lemma SharedKeyOvershoots(cfg: Config, k: string) returns (es: seq<Event>, s: State)
    requires cfg.threshold > 0 && k in cfg.claimKeys && k in cfg.volumeKeys
    ensures Exec(cfg, Init(), es) == Some(s) && Count(s.counts, k) == cfg.threshold + 1
  {
    assert Exec(cfg, Init(), []) == Some(Init());
    es, s := Then(cfg, Init(), [], Init(), VolumeDecide(0, k));
    es, s := Then(cfg, Init(), es, s, CheckEnqueue(k));
    es, s := Then(cfg, Init(), es, s, Enqueue);
    es, s := FailedRounds(cfg, Init(), es, s, k, 0);
    es, s := Then(cfg, Init(), es, s, VolumeRetry(0));
  }

  /** The queues share one limiter: a claim's bound holds in all runs exactly when its key is no volume key. */
  lemma BoundIffUnshared(cfg: Config, k: string)
    requires cfg.threshold > 0 && k in cfg.claimKeys
    ensures (forall es: seq<Event>, s: State | Exec(cfg, Init(), es) == Some(s) :: Count(s.counts, k) <= cfg.threshold)
            <==> k !in cfg.volumeKeys
  {
    if k in cfg.volumeKeys {
      var es, s := SharedKeyOvershoots(cfg, k);
    } else {
      forall es: seq<Event>, s: State | Exec(cfg, Init(), es) == Some(s)
        ensures Count(s.counts, k) <= cfg.threshold
      {
        BoundedAlways(cfg, Init(), es, s, k);
      }
    }
  }

  // ---------------------------------------------------------------- the volume side of the limiter

  /** The volume workers that have passed their check on the key and not counted yet. */
  function DeletersOf(s: State, k: string): set<nat> {
    set t | t in s.deleters && s.deleters[t] == k
  }

  /** Nothing of the claim queue has to do with the key. */
  predicate NoClaim(s: State, k: string) {
    !s.claims.Has(k) && k !in s.workers && s.adding != Some(k)
  }

  lemma NoClaimStep(cfg: Config, s: State, e: Event, s': State, k: string)
    requires NoClaim(s, k) && k !in cfg.claimKeys && Step(cfg, s, e) == Some(s')
    ensures NoClaim(s', k)
    ensures e.VolumeDecide? || e.VolumeRetry? || e.VolumeForget? ||
            (Count(s'.counts, k) == Count(s.counts, k) && s'.deleters == s.deleters)
  {
  }

  /** Failures on record and about to be counted, with at most `n` volume workers on the key at once. */
  predicate VolumeBounded(cfg: Config, s: State, k: string, n: nat) {
    Count(s.counts, k) + |DeletersOf(s, k)| < cfg.deleteThreshold + n
  }

  lemma VolumeDecideBounded(cfg: Config, s: State, t: nat, j: string, s': State, k: string, n: nat)
    requires VolumeBounded(cfg, s, k, n) && cfg.deleteThreshold > 0
    requires DoVolumeDecide(cfg, s, t, j) == Some(s') && |DeletersOf(s', k)| <= n
    ensures VolumeBounded(cfg, s', k, n)
  {
    if j != k {
      assert DeletersOf(s', k) == DeletersOf(s, k);
    }
  }

  lemma VolumeRetryBounded(cfg: Config, s: State, t: nat, s': State, k: string, n: nat)
    requires VolumeBounded(cfg, s, k, n) && DoVolumeRetry(s, t) == Some(s')
    ensures VolumeBounded(cfg, s', k, n)
  {
    if s.deleters[t] == k {
      assert t in DeletersOf(s, k) && DeletersOf(s', k) == DeletersOf(s, k) - {t};
    } else {
      assert DeletersOf(s', k) == DeletersOf(s, k);
    }
  }

  lemma VolumeForgetBounded(cfg: Config, s: State, j: string, s': State, k: string, n: nat)
    requires VolumeBounded(cfg, s, k, n) && DoVolumeForget(cfg, s, j) == Some(s')
    ensures VolumeBounded(cfg, s', k, n)
  {
    assert DeletersOf(s', k) == DeletersOf(s, k);
  }

  /** Along the run no more than `n` volume workers are on the key at once. */
  ghost predicate FewDeleters(cfg: Config, s: State, es: seq<Event>, k: string, n: nat)
    decreases |es|
  {
    && |DeletersOf(s, k)| <= n
    && (es != [] && Step(cfg, s, es[0]).Some? ==> FewDeleters(cfg, Step(cfg, s, es[0]).value, es[1..], k, n))
  }

  lemma {:induction false} VolumeBoundedAlways(cfg: Config, s: State, es: seq<Event>, s': State, k: string, n: nat)
    requires NoClaim(s, k) && VolumeBounded(cfg, s, k, n) && k !in cfg.claimKeys && cfg.deleteThreshold > 0
    requires Exec(cfg, s, es) == Some(s') && FewDeleters(cfg, s, es, k, n)
    ensures VolumeBounded(cfg, s', k, n)
    decreases |es|
  {
    if es != [] {
      var e, next := es[0], Step(cfg, s, es[0]).value;
      NoClaimStep(cfg, s, e, next, k);
      if e.VolumeDecide? {
        VolumeDecideBounded(cfg, s, e.t, e.key, next, k, n);
      } else if e.VolumeRetry? {
        VolumeRetryBounded(cfg, s, e.t, next, k, n);
      } else if e.VolumeForget? {
        VolumeForgetBounded(cfg, s, e.key, next, k, n);
      } else {
        assert DeletersOf(next, k) == DeletersOf(s, k);
      }
      VolumeBoundedAlways(cfg, next, es[1..], s', k, n);
    }
  }

  /**
   A volume key that is no claim key never has more failures than its own threshold, if one worker at a time is on
   it, and with up to n workers never more than n - 1 above.
   */
  lemma VolumeRetriesBounded(cfg: Config, es: seq<Event>, s: State, k: string, n: nat)
    requires Exec(cfg, Init(), es) == Some(s) && k !in cfg.claimKeys && cfg.deleteThreshold > 0 && n > 0
    requires FewDeleters(cfg, Init(), es, k, n)
    ensures Count(s.counts, k) + |DeletersOf(s, k)| <= cfg.deleteThreshold + n - 1
  {
    assert DeletersOf(Init(), k) == {};
    VolumeBoundedAlways(cfg, Init(), es, s, k, n);
  }

  // ---------------------------------------------------------------- claims that were given up

  /** In no queue set, not about to be added, with failures on record. */
  ghost predicate Abandoned(s: State, k: string) {
    Count(s.counts, k) > 0 && !s.claims.Has(k) && k !in s.workers && s.adding != Some(k) && Untouched(s, k)
  }

  lemma AbandonedStep(cfg: Config, s: State, e: Event, s': State, k: string)
    requires Abandoned(s, k) && k !in cfg.volumeKeys && Step(cfg, s, e) == Some(s')
    ensures Abandoned(s', k) && e != Get(k)
  {
  }

  /** No later event hands an abandoned claim to a worker. */
  lemma {:induction false} AbandonedForGood(cfg: Config, s: State, es: seq<Event>, s': State, k: string)
    requires Abandoned(s, k) && k !in cfg.volumeKeys && Exec(cfg, s, es) == Some(s')
    ensures Abandoned(s', k) && Get(k) !in es
    decreases |es|
  {
    if es != [] {
      var next := Step(cfg, s, es[0]).value;
      AbandonedStep(cfg, s, es[0], next, k);
      AbandonedForGood(cfg, next, es[1..], s', k);
      assert es == [es[0]] + es[1..];
    }
  }

  /** A volume that succeeds under the same key clears the failures, and the claim is taken up again. */
  lemma SharedKeyRevives(cfg: Config, s: State, k: string) returns (es: seq<Event>, s': State)
    requires Abandoned(s, k) && k in cfg.claimKeys && k in cfg.volumeKeys
    ensures Exec(cfg, s, es) == Some(s') && Get(k) in es
  {
    assert Exec(cfg, s, []) == Some(s);
    es, s' := [], s;
    if s.adding.Some? {
      es, s' := Then(cfg, s, es, s', Enqueue);
    }
    es, s' := Then(cfg, s, es, s', VolumeForget(k));
    es, s' := Then(cfg, s, es, s', CheckEnqueue(k));
    es, s' := Then(cfg, s, es, s', Enqueue);
    es, s' := Then(cfg, s, es, s', Get(k));
    assert es[|es| - 1] == Get(k);
  }

  lemma AbandonedForGoodIff(cfg: Config, s: State, k: string)
    requires Abandoned(s, k) && k in cfg.claimKeys
    ensures (forall es: seq<Event>, s': State | Exec(cfg, s, es) == Some(s') :: Get(k) !in es)
            <==> k !in cfg.volumeKeys
  {
    if k in cfg.volumeKeys {
      var es, s' := SharedKeyRevives(cfg, s, k);
    } else {
      forall es: seq<Event>, s': State | Exec(cfg, s, es) == Some(s')
        ensures Get(k) !in es
      {
        AbandonedForGood(cfg, s, es, s', k);
      }
    }
  }

  /** Giving up abandons the claim for good unless something had queued it meanwhile. */
  lemma GiveUpAbandons(cfg: Config, es: seq<Event>, s: State, s1: State, s2: State, more: seq<Event>, s': State,
                       k: string)
    requires Exec(cfg, Init(), es) == Some(s) && k !in cfg.volumeKeys
    requires DoGiveUp(s, k) == Some(s1) && DoFinish(s1, k) == Some(s2)
    requires k !in s.claims.dirty && k !in s.claims.delayed && s.adding != Some(k)
    requires Exec(cfg, s2, more) == Some(s')
    ensures Get(k) !in more && k !in s'.inProgress
  {
    BoundedAlways(cfg, Init(), es, s, k);
    AwaitedAlways(cfg, Init(), es, s, k);
    AwaitedStep(cfg, s, GiveUp(k), s1, k);
    ExplainedStep(cfg, s, GiveUp(k), s1, k);
    AwaitedStep(cfg, s1, Finish(k), s2, k);
    ExplainedStep(cfg, s1, Finish(k), s2, k);
    AbandonedForGood(cfg, s2, more, s', k);
    AwaitedAlways(cfg, s2, more, s', k);
  }

  // ---------------------------------------------------------------- the controller object

  lemma {:induction false} ExecThen(cfg: Config, s: State, es: seq<Event>, mid: State, e: Event)
    requires Exec(cfg, s, es) == Some(mid)
    ensures Exec(cfg, s, es + [e]) == Step(cfg, mid, e)
    decreases |es|
  {
    if es == [] {
      assert (es + [e])[1..] == [];
    } else {
      ExecThen(cfg, Step(cfg, s, es[0]).value, es[1..], mid, e);
      assert (es + [e])[1..] == es[1..] + [e];
    }
  }

  /** A worker's item as atomic events: from Get to the result, then to Done. */
  ghost function ResultEvents(s: State, k: string, lookup: Lookup, a: Answers): seq<Event> {
    if lookup.Cached? || (lookup == Absent && k in s.inProgress) then [Get(k), Find(k, lookup), Sync(k, a)]
    else [Get(k), Find(k, lookup)]
  }

  ghost function ClosingEvents(cfg: Config, s: State, k: string): seq<Event> {
    if IsAt(s, k, Succeeding) then [Forget(k), DropClaim(k), Finish(k)]
    else if cfg.threshold == 0 || Count(s.counts, k) < cfg.threshold then [Decide(k), Retry(k), Finish(k)]
    else [Decide(k), GiveUp(k), Finish(k)]
  }

  /** An informer handler as atomic events. */
  ghost function EnqueueEvents(s: State, k: string): seq<Event> {
    if Count(s.counts, k) == 0 then [CheckEnqueue(k), Enqueue] else [CheckEnqueue(k)]
  }

  lemma Enqueued(cfg: Config, s: State, k: string)
    requires k in cfg.claimKeys && s.adding.None?
    ensures Exec(cfg, s, EnqueueEvents(s, k)) ==
            Some(if Count(s.counts, k) == 0 then s.(claims := s.claims.Add(k)) else s)
  {
    if Count(s.counts, k) == 0 {
      Three(cfg, s, CheckEnqueue(k), Enqueue, Enqueue);
    } else {
      assert Exec(cfg, s, []) == Some(s);
      ExecThen(cfg, s, [], s, CheckEnqueue(k));
      assert [] + [CheckEnqueue(k)] == [CheckEnqueue(k)];
    }
  }

  lemma Three(cfg: Config, s: State, a: Event, b: Event, c: Event)
    requires Step(cfg, s, a).Some? && Step(cfg, Step(cfg, s, a).value, b).Some?
    ensures Exec(cfg, s, [a, b]) == Step(cfg, Step(cfg, s, a).value, b)
    ensures Exec(cfg, s, [a, b, c]) == Step(cfg, Step(cfg, Step(cfg, s, a).value, b).value, c)
  {
    var s1 := Step(cfg, s, a).value;
    var s2 := Step(cfg, s1, b).value;
    assert Exec(cfg, s, []) == Some(s);
    ExecThen(cfg, s, [], s, a);
    assert [] + [a] == [a];
    ExecThen(cfg, s, [a], s1, b);
    assert [a] + [b] == [a, b];
    ExecThen(cfg, s, [a, b], s2, c);
    assert [a, b] + [c] == [a, b, c];
  }

  /** Where the events up to the result lead, without and with a sync. */
  lemma TakenUnsynced(cfg: Config, s: State, k: string, lookup: Lookup, a: Answers)
    requires k in s.claims.dirty && k !in s.claims.processing && s.workers == map[]
    requires lookup == IndexError || (lookup == Absent && k !in s.inProgress)
    ensures Exec(cfg, s, ResultEvents(s, k, lookup, a)) ==
            Some(s.(claims := s.claims.Get(k),
                    workers := map[k := if lookup == IndexError then Failing else Succeeding]))
  {
    var phase := if lookup == IndexError then Failing else Succeeding;
    assert map[][k := Got][k := phase] == map[k := phase];
    Three(cfg, s, Get(k), Find(k, lookup), Enqueue);
  }

  lemma TakenSynced(cfg: Config, s: State, k: string, lookup: Lookup, a: Answers, claim: ClaimObj)
    requires k in s.claims.dirty && k !in s.claims.processing && s.workers == map[]
    requires lookup == Cached(claim) || (lookup == Absent && k in s.inProgress && claim == s.inProgress[k])
    ensures var o := SyncClaim(cfg.ext, a);
            Exec(cfg, s, ResultEvents(s, k, lookup, a)) ==
            Some(s.(claims := s.claims.Get(k), workers := map[k := if o.failed then Failing else Succeeding],
                    inProgress := Recorded(s.inProgress, k, claim, o), log := s.log + [Result(k, claim, o)]))
  {
    var phase := if SyncClaim(cfg.ext, a).failed then Failing else Succeeding;
    assert map[][k := Got][k := Syncing(claim)][k := phase] == map[k := phase];
    Three(cfg, s, Get(k), Find(k, lookup), Sync(k, a));
  }

  lemma ClosedSuccess(cfg: Config, s: State, k: string)
    requires s.workers == map[k := Succeeding]
    ensures Exec(cfg, s, [Forget(k), DropClaim(k), Finish(k)]) ==
            Some(State(s.claims.Done(k), s.counts - {k}, s.inProgress - {k}, map[], s.adding, s.deleters,
                       s.log + [Forgot(k)]))
  {
    Three(cfg, s, Forget(k), DropClaim(k), Finish(k));
    assert map[k := Finishing] - {k} == map[];
  }

  lemma ClosedRetry(cfg: Config, s: State, k: string)
    requires s.workers == map[k := Failing] && (cfg.threshold == 0 || Count(s.counts, k) < cfg.threshold)
    ensures Exec(cfg, s, [Decide(k), Retry(k), Finish(k)]) ==
            Some(State(s.claims.AddAfter(k).Done(k), s.counts[k := Count(s.counts, k) + 1], s.inProgress, map[],
                       s.adding, s.deleters, s.log + [Readded(k)]))
  {
    Three(cfg, s, Decide(k), Retry(k), Finish(k));
    assert map[k := Finishing] - {k} == map[];
  }

  lemma ClosedGiveUp(cfg: Config, s: State, k: string)
    requires s.workers == map[k := Failing] && cfg.threshold > 0 && Count(s.counts, k) >= cfg.threshold
    ensures Exec(cfg, s, [Decide(k), GiveUp(k), Finish(k)]) ==
            Some(State(s.claims.Done(k), s.counts, s.inProgress - {k}, map[], s.adding, s.deleters,
                       s.log + [GaveUp(k)]))
  {
    Three(cfg, s, Decide(k), GiveUp(k), Finish(k));
    assert map[k := Finishing] - {k} == map[];
  }

  /** The fields of ProvisionController that claims use, changed in place by its methods. */
  class ProvisionController {
    const config: Config
    var claims: Queue
    var counts: Counts
    var inProgress: map<string, ClaimObj>

    constructor (config: Config)
      ensures this.config == config && claims == Queue({}, {}, {}) && counts == map[] && inProgress == map[]
    {
      this.config := config;
      claims, counts, inProgress := Queue({}, {}, {}), map[], map[];
    }

    /** The fields as a state of the machine above, with these workers in flight. */
    ghost function View(workers: map<string, Phase>, log: seq<Entry>): State
      reads this
    {
      State(claims, counts, inProgress, workers, None, map[], log)
    }

    /**
     enqueueClaim is the run of its two operations. The claim is queued afterwards unless it has failures on
     record, and a claim that was given up stays given up.
     */
    method EnqueueClaim(uid: string, ghost log: seq<Entry>)
      requires uid in config.claimKeys
      modifies this`claims
      ensures Exec(config, old(View(map[], log)), EnqueueEvents(old(View(map[], log)), uid)) == Some(View(map[], log))
      ensures Count(counts, uid) == 0 ==> uid in claims.dirty
      ensures old(Abandoned(View(map[], log), uid)) ==> Abandoned(View(map[], log), uid)
    {
      Enqueued(config, View(map[], log), uid);
      if Count(counts, uid) == 0 {
        claims := claims.Add(uid);
      }
    }

    method SyncClaimHandler(key: string, lookup: Lookup, answers: Answers) returns (o: Outcome)
      modifies this`inProgress
      ensures lookup == IndexError ==> o == Outcome(Finished, true) && inProgress == old(inProgress)
      ensures lookup == Absent && key !in old(inProgress) ==>
                o == Outcome(Finished, false) && inProgress == old(inProgress)
      ensures lookup.Cached? ==>
                o == SyncClaim(config.ext, answers) && inProgress == Recorded(old(inProgress), key, lookup.claim, o)
      ensures lookup == Absent && key in old(inProgress) ==>
                && o == SyncClaim(config.ext, answers)
                && inProgress == Recorded(old(inProgress), key, old(inProgress[key]), o)
    {
      if lookup == IndexError {
        return Outcome(Finished, true);
      }
      var claim: ClaimObj;
      if lookup.Cached? {
        claim := lookup.claim;
      } else if key !in inProgress {
        return Outcome(Finished, false);
      } else {
        claim := inProgress[key];
      }
      o := SyncClaim(config.ext, answers);
      if !o.failed || o.status == Finished {
        inProgress := inProgress - {key};
        return;
      }
      if o.status == Background {
        inProgress := inProgress[key := claim];
      }
    }

    /** Get and syncClaimHandler: the events up to the result. */
    method TakeAndSync(key: string, lookup: Lookup, answers: Answers, ghost log: seq<Entry>)
      returns (o: Outcome, ghost mid: State)
      requires key in claims.dirty && key !in claims.processing
      modifies this`claims, this`inProgress
      ensures var before := old(View(map[], log));
              Exec(config, before, ResultEvents(before, key, lookup, answers)) == Some(mid)
      ensures mid == View(map[key := if o.failed then Failing else Succeeding], mid.log)
    {
      ghost var s := View(map[], log);
      claims := claims.Get(key);
      o := SyncClaimHandler(key, lookup, answers);
      if lookup == IndexError || (lookup == Absent && key !in s.inProgress) {
        TakenUnsynced(config, s, key, lookup, answers);
      } else {
        TakenSynced(config, s, key, lookup, answers, if lookup.Cached? then lookup.claim else s.inProgress[key]);
      }
      mid := Exec(config, s, ResultEvents(s, key, lookup, answers)).value;
    }

    /** After a failed sync the claim is added again or given up, and the key goes back to the queue. */
    method EndFailed(key: string, ghost mid: State) returns (ghost log: seq<Entry>)
      requires mid == View(map[key := Failing], mid.log)
      modifies this`claims, this`counts, this`inProgress
      ensures Exec(config, mid, ClosingEvents(config, mid, key)) == Some(View(map[], log))
      ensures key !in claims.processing
    {
      if config.threshold == 0 || Count(counts, key) < config.threshold {
        ClosedRetry(config, mid, key);
        counts := counts[key := Count(counts, key) + 1];
        claims := claims.AddAfter(key);
      } else {
        ClosedGiveUp(config, mid, key);
        inProgress := inProgress - {key};
      }
      claims := claims.Done(key);
      log := Exec(config, mid, ClosingEvents(config, mid, key)).value.log;
    }

    /** After a successful one its failures are forgotten. */
    method EndSucceeded(key: string, ghost mid: State) returns (ghost log: seq<Entry>)
      requires mid == View(map[key := Succeeding], mid.log)
      modifies this`claims, this`counts, this`inProgress
      ensures Exec(config, mid, ClosingEvents(config, mid, key)) == Some(View(map[], log))
      ensures key !in claims.processing
    {
      ClosedSuccess(config, mid, key);
      counts := counts - {key};
      inProgress := inProgress - {key};
      claims := claims.Done(key);
      log := Exec(config, mid, ClosingEvents(config, mid, key)).value.log;
    }

    /**
     One whole item without interference is the run of its atomic events: it ends in the state those
     events lead to, with the key handed back to the queue.
     */
    method ProcessNextClaimWorkItem(key: string, lookup: Lookup, answers: Answers, ghost log: seq<Entry>)
      returns (o: Outcome, ghost mid: State, ghost log': seq<Entry>)
      requires key in claims.dirty && key !in claims.processing
      modifies this`claims, this`counts, this`inProgress
      ensures var before := old(View(map[], log));
              Exec(config, before, ResultEvents(before, key, lookup, answers)) == Some(mid)
      ensures Exec(config, mid, ClosingEvents(config, mid, key)) == Some(View(map[], log'))
      ensures key !in claims.processing
    {
      o, mid := TakeAndSync(key, lookup, answers, log);
      if o.failed {
        log' := EndFailed(key, mid);
      } else {
        log' := EndSucceeded(key, mid);
      }
    }
  }
}
