/** The two ways of controller/volume_store.go to get a provisioned PV into the API server. */
module QueueStore {
  import opened Common
  import opened WorkQueue

  type Volume = string

  // ---------------------------------------------------------------- the state machine

  /** A StoreVolume call between its operations: before the save, before volumes.Store, before queue.Add. */
  datatype Call = Calling(name: string, volume: Volume) | ToKeep(name: string, volume: Volume) | ToAdd(name: string)

  /** Where the worker that holds a name stands in processNextWorkItem. */
  datatype Phase = Got | Loaded(volume: Volume) | Unsaved | Saved | Finishing

  /**
   `saved` holds what the API server accepted last or already had under a name, `accepted` the names for which
   StoreVolume has returned nil, and `offered` what StoreVolume was called with.
   */
  datatype State = State(
    volumes: map<string, Volume>,
    queue: Queue,
    calls: map<nat, Call>,
    workers: map<string, Phase>,
    saved: map<string, Volume>,
    accepted: set<string>,
    offered: set<(string, Volume)>)

  function Init(): State {
    State(map[], Queue({}, {}, {}), map[], map[], map[], {}, {})
  }

  datatype Event =
    | Begin(t: nat, name: string, volume: Volume)
    | FirstSave(t: nat, ok: bool)
    | Keep(t: nat)
    | Add(t: nat)
    | Get(name: string)
    | Load(name: string)
    | Save(name: string, ok: bool)
    | Requeue(name: string, delay: bool)
    | Drop(name: string)
    | Finish(name: string)
    | Fire(name: string)

  function DoCall(s: State, e: Event): Option<State>
    requires e.Begin? || e.FirstSave? || e.Keep? || e.Add?
  {
    match e
    case Begin(t, name, volume) =>
      if t in s.calls then None
      else Some(s.(calls := s.calls[t := Calling(name, volume)], offered := s.offered + {(name, volume)}))
    case FirstSave(t, ok) =>
      if t !in s.calls || !s.calls[t].Calling? then None
      else
        var c := s.calls[t];
        if ok
        then Some(s.(calls := s.calls - {t}, saved := s.saved[c.name := c.volume], accepted := s.accepted + {c.name}))
        else Some(s.(calls := s.calls[t := ToKeep(c.name, c.volume)]))
    case Keep(t) =>
      if t !in s.calls || !s.calls[t].ToKeep? then None
      else
        var c := s.calls[t];
        Some(s.(volumes := s.volumes[c.name := c.volume], calls := s.calls[t := ToAdd(c.name)]))
    case Add(t) =>
      if t !in s.calls || !s.calls[t].ToAdd? then None
      else
        var c := s.calls[t];
        Some(s.(queue := s.queue.Add(c.name), calls := s.calls - {t}, accepted := s.accepted + {c.name}))
  }

  function At(s: State, name: string, phase: Phase): State {
    s.(workers := s.workers[name := phase])
  }

  predicate IsAt(s: State, name: string, phase: Phase) {
    name in s.workers && s.workers[name] == phase
  }

  function DoWork(s: State, e: Event): Option<State>
    requires !(e.Begin? || e.FirstSave? || e.Keep? || e.Add?)
  {
    var name := e.name;
    match e
    case Get(_) =>
      if name !in s.queue.dirty || name in s.queue.processing then None
      else Some(At(s, name, Got).(queue := s.queue.Get(name)))
    case Load(_) =>
      if !IsAt(s, name, Got) then None
      else if name in s.volumes then Some(At(s, name, Loaded(s.volumes[name])))
      else Some(At(s, name, Finishing))
    case Save(_, ok) =>
      if name !in s.workers || !s.workers[name].Loaded? then None
      else if ok then Some(At(s, name, Saved).(saved := s.saved[name := s.workers[name].volume]))
      else Some(At(s, name, Unsaved))
    case Requeue(_, delay) =>
      if !IsAt(s, name, Unsaved) then None
      else Some(At(s, name, Finishing).(queue := if delay then s.queue.AddAfter(name) else s.queue.Add(name)))
    case Drop(_) =>
      if !IsAt(s, name, Saved) then None
      else Some(At(s, name, Finishing).(volumes := s.volumes - {name}))
    case Finish(_) =>
      if !IsAt(s, name, Finishing) then None
      else Some(s.(workers := s.workers - {name}, queue := s.queue.Done(name)))
    case Fire(_) =>
      if name !in s.queue.delayed then None else Some(s.(queue := s.queue.Fire(name)))
  }

  function Step(s: State, e: Event): Option<State> {
    if e.Begin? || e.FirstSave? || e.Keep? || e.Add? then DoCall(s, e) else DoWork(s, e)
  }

  function Exec(s: State, es: seq<Event>): Option<State>
    decreases |es|
  {
    if es == [] then Some(s)
    else
      var next := Step(s, es[0]);
      if next.None? then None else Exec(next.value, es[1..])
  }

  // ---------------------------------------------------------------- nothing is lost

  predicate AboutToAdd(s: State, t: nat, name: string) {
    t in s.calls && s.calls[t] == ToAdd(name)
  }

  /** Somebody will look at the name again: it waits, a worker has yet to look, or a call has yet to add it. */
  ghost predicate Tended(s: State, name: string) {
    || name in s.queue.dirty
    || name in s.queue.delayed
    || (name in s.workers && !s.workers[name].Finishing?)
    || exists t :: AboutToAdd(s, t, name)
  }

  ghost predicate Safe(s: State, name: string) {
    && (name in s.queue.processing <==> name in s.workers)
    && (name in s.accepted ==> name in s.saved || name in s.volumes)
    && (forall t | AboutToAdd(s, t, name) :: name in s.saved || name in s.volumes)
    && (name in s.volumes ==> Tended(s, name))
    && (IsAt(s, name, Saved) ==> name in s.saved)
  }

  lemma CallKeepsSafe(s: State, e: Event, s': State, name: string)
    requires Safe(s, name) && (e.Begin? || e.FirstSave? || e.Keep? || e.Add?) && DoCall(s, e) == Some(s')
    ensures Safe(s', name)
  {
    if e.Keep? {
      assert AboutToAdd(s', e.t, s.calls[e.t].name);
    } else if e.Add? {
      assert AboutToAdd(s, e.t, s.calls[e.t].name);
    }
    forall t | t != e.t
      ensures AboutToAdd(s', t, name) <==> AboutToAdd(s, t, name)
    {
    }
  }

  lemma WorkKeepsSafe(s: State, e: Event, s': State, name: string)
    requires Safe(s, name) && !(e.Begin? || e.FirstSave? || e.Keep? || e.Add?) && DoWork(s, e) == Some(s')
    ensures Safe(s', name)
  {
    forall t
      ensures AboutToAdd(s', t, name) <==> AboutToAdd(s, t, name)
    {
    }
  }

  lemma {:induction false} SafeAlways(s: State, es: seq<Event>, s': State, name: string)
    requires Safe(s, name) && Exec(s, es) == Some(s')
    ensures Safe(s', name)
    decreases |es|
  {
    if es != [] {
      var e, next := es[0], Step(s, es[0]).value;
      if e.Begin? || e.FirstSave? || e.Keep? || e.Add? {
        CallKeepsSafe(s, e, next, name);
      } else {
        WorkKeepsSafe(s, e, next, name);
      }
      SafeAlways(next, es[1..], s', name);
    }
  }

  /**
   In every state of every interleaving an accepted volume has been saved or is kept, and every kept
   volume is queued, delayed, being processed or about to be added by its StoreVolume.
   */
  lemma NothingLost(es: seq<Event>, s: State, name: string)
    requires Exec(Init(), es) == Some(s)
    ensures name in s.accepted ==> name in s.saved || name in s.volumes
    ensures name in s.volumes ==> s.queue.Has(name) || exists t :: AboutToAdd(s, t, name)
  {
    SafeAlways(Init(), es, s, name);
  }

  /** Once all is quiet every accepted volume has been saved and none is left over. */
  lemma QuietMeansSaved(es: seq<Event>, s: State)
    requires Exec(Init(), es) == Some(s)
    requires s.calls == map[] && s.workers == map[] && s.queue.dirty == {} && s.queue.delayed == {}
    ensures s.accepted <= s.saved.Keys && s.volumes == map[]
  {
    forall name
      ensures name !in s.volumes && (name in s.accepted ==> name in s.saved)
    {
      SafeAlways(Init(), es, s, name);
    }
  }

  // ---------------------------------------------------------------- nothing is stuck

  lemma {:induction false} ExecThen(s: State, es: seq<Event>, mid: State, e: Event)
    requires Exec(s, es) == Some(mid)
    ensures Exec(s, es + [e]) == Step(mid, e)
    decreases |es|
  {
    if es == [] {
      assert (es + [e])[1..] == [];
    } else {
      ExecThen(Step(s, es[0]).value, es[1..], mid, e);
      assert (es + [e])[1..] == es[1..] + [e];
    }
  }

  lemma Then(init: State, es: seq<Event>, s: State, e: Event) returns (es': seq<Event>, s': State)
    requires Exec(init, es) == Some(s) && Step(s, e).Some?
    ensures Exec(init, es') == Some(s') && Step(s, e) == Some(s')
  {
    ExecThen(init, es, s, e);
    es', s' := es + [e], Step(s, e).value;
  }

  /** Saved, and no longer kept. */
  predicate Settled(s: State, name: string) {
    name in s.saved && name !in s.volumes
  }

  lemma SaveAndDrop(init: State, es: seq<Event>, s: State, name: string) returns (es': seq<Event>, s': State)
    requires Exec(init, es) == Some(s) && name in s.workers && s.workers[name].Loaded?
    ensures Exec(init, es') == Some(s') && Settled(s', name)
  {
    es', s' := Then(init, es, s, Save(name, true));
    es', s' := Then(init, es', s', Drop(name));
  }

  /** A worker takes the queued name and saves what is kept under it. */
  lemma SaveQueued(init: State, es: seq<Event>, s: State, name: string) returns (es': seq<Event>, s': State)
    requires Exec(init, es) == Some(s) && name in s.volumes
    requires name in s.queue.dirty && name !in s.queue.processing
    ensures Exec(init, es') == Some(s') && Settled(s', name)
  {
    es', s' := Then(init, es, s, Get(name));
    es', s' := Then(init, es', s', Load(name));
    es', s' := SaveAndDrop(init, es', s', name);
  }

  /** The name is queued if it is not already. */
  lemma QueueUp(init: State, es: seq<Event>, s: State, name: string) returns (es': seq<Event>, s': State)
    requires Exec(init, es) == Some(s) && Tended(s, name) && name !in s.workers
    ensures Exec(init, es') == Some(s') && name in s'.queue.dirty
    ensures s'.volumes == s.volumes && s'.queue.processing == s.queue.processing
  {
    es', s' := es, s;
    if name !in s.queue.dirty {
      if name in s.queue.delayed {
        es', s' := Then(init, es, s, Fire(name));
      } else {
        var t :| AboutToAdd(s, t, name);
        es', s' := Then(init, es, s, Add(t));
      }
    }
  }

  /** The worker that has the name saves what is kept, or gives the name back. */
  lemma LetGo(init: State, es: seq<Event>, s: State, name: string) returns (es': seq<Event>, s': State)
    requires Exec(init, es) == Some(s) && name in s.volumes && Safe(s, name)
    ensures Exec(init, es') == Some(s')
    ensures Settled(s', name) || (name in s'.volumes && name !in s'.workers && Safe(s', name))
  {
    es', s' := es, s;
    if IsAt(s, name, Got) {
      es', s' := Then(init, es, s, Load(name));
    }
    if name in s'.workers && s'.workers[name].Loaded? {
      es', s' := SaveAndDrop(init, es', s', name);
    } else if IsAt(s, name, Saved) {
      es', s' := Then(init, es, s, Drop(name));
    } else {
      es', s' := LetGoUnsaved(init, es, s, name);
    }
  }

  lemma LetGoUnsaved(init: State, es: seq<Event>, s: State, name: string) returns (es': seq<Event>, s': State)
    requires Exec(init, es) == Some(s) && name in s.volumes && Safe(s, name)
    requires name in s.workers ==> s.workers[name].Unsaved? || s.workers[name].Finishing?
    ensures Exec(init, es') == Some(s') && name in s'.volumes && name !in s'.workers && Safe(s', name)
  {
    es', s' := es, s;
    if IsAt(s, name, Unsaved) {
      es', s' := Then(init, es, s, Requeue(name, true));
      WorkKeepsSafe(s, Requeue(name, true), s', name);
    }
    if name in s'.workers {
      ghost var s1 := s';
      es', s' := Then(init, es', s', Finish(name));
      WorkKeepsSafe(s1, Finish(name), s', name);
    }
  }

  /** From every state of every interleaving there is a way on after which a kept volume is saved and dropped. */
  lemma KeptCanBeSaved(es: seq<Event>, s: State, name: string) returns (es': seq<Event>, s': State)
    requires Exec(Init(), es) == Some(s) && name in s.volumes
    ensures Exec(s, es') == Some(s') && Settled(s', name)
  {
    SafeAlways(Init(), es, s, name);
    assert Exec(s, []) == Some(s);
    es', s' := LetGo(s, [], s, name);
    if !Settled(s', name) {
      es', s' := QueueUp(s, es', s', name);
      es', s' := SaveQueued(s, es', s', name);
    }
  }

  // ---------------------------------------------------------------- what is saved was offered

  predicate CallOffered(offered: set<(string, Volume)>, c: Call) {
    c.Calling? || c.ToKeep? ==> (c.name, c.volume) in offered
  }

  /** Every volume in the store, on its way into it or out of it was offered under its name. */
  ghost predicate Sourced(s: State) {
    && (forall t | t in s.calls :: CallOffered(s.offered, s.calls[t]))
    && (forall name | name in s.volumes :: (name, s.volumes[name]) in s.offered)
    && (forall name | name in s.workers && s.workers[name].Loaded? :: (name, s.workers[name].volume) in s.offered)
    && (forall name | name in s.saved :: (name, s.saved[name]) in s.offered)
  }

  lemma CallKeepsSourced(s: State, e: Event, s': State)
    requires Sourced(s) && (e.Begin? || e.FirstSave? || e.Keep? || e.Add?) && DoCall(s, e) == Some(s')
    ensures Sourced(s')
  {
    if !e.Begin? {
      assert CallOffered(s.offered, s.calls[e.t]);
    }
    forall t | t in s'.calls
      ensures CallOffered(s'.offered, s'.calls[t])
    {
      if t != e.t {
        assert CallOffered(s.offered, s.calls[t]);
      }
    }
  }

  lemma WorkKeepsSourced(s: State, e: Event, s': State)
    requires Sourced(s) && !(e.Begin? || e.FirstSave? || e.Keep? || e.Add?) && DoWork(s, e) == Some(s')
    ensures Sourced(s')
  {
  }

  lemma {:induction false} SourcedAlways(s: State, es: seq<Event>, s': State)
    requires Sourced(s) && Exec(s, es) == Some(s')
    ensures Sourced(s')
    decreases |es|
  {
    if es != [] {
      var e, next := es[0], Step(s, es[0]).value;
      if e.Begin? || e.FirstSave? || e.Keep? || e.Add? {
        CallKeepsSourced(s, e, next);
      } else {
        WorkKeepsSourced(s, e, next);
      }
      SourcedAlways(next, es[1..], s');
    }
  }

  /** In every interleaving only what StoreVolume was called with is ever saved or kept, under the same name. */
  lemma SavedWasOffered(es: seq<Event>, s: State, name: string)
    requires Exec(Init(), es) == Some(s)
    ensures name in s.saved ==> (name, s.saved[name]) in s.offered
    ensures name in s.volumes ==> (name, s.volumes[name]) in s.offered
  {
    SourcedAlways(Init(), es, s);
  }

  // ---------------------------------------------------------------- the store object

  lemma Two(s: State, a: Event, b: Event)
    requires Step(s, a).Some?
    ensures Exec(s, [a, b]) == Step(Step(s, a).value, b)
  {
    var s1 := Step(s, a).value;
    assert Exec(s, []) == Some(s);
    ExecThen(s, [], s, a);
    assert [] + [a] == [a];
    ExecThen(s, [a], s1, b);
    assert [a] + [b] == [a, b];
  }

  /** One more event after a run that is already known. */
  lemma Extend(s: State, es: seq<Event>, mid: State, e: Event, all: seq<Event>)
    requires Exec(s, es) == Some(mid) && all == es + [e]
    ensures Exec(s, all) == Step(mid, e)
  {
    ExecThen(s, es, mid, e);
  }

  /** StoreVolume as atomic events. */
  ghost function StoreEvents(name: string, volume: Volume, ok: bool): seq<Event> {
    if ok then [Begin(0, name, volume), FirstSave(0, true)]
    else [Begin(0, name, volume), FirstSave(0, false), Keep(0), Add(0)]
  }

  /** Where they lead when no other call or worker interferes. */
  lemma StoredAtOnce(s: State, name: string, volume: Volume)
    requires s.calls == map[]
    ensures Exec(s, StoreEvents(name, volume, true)) ==
            Some(s.(saved := s.saved[name := volume], accepted := s.accepted + {name},
                    offered := s.offered + {(name, volume)}))
  {
    Two(s, Begin(0, name, volume), FirstSave(0, true));
    assert map[0 := Calling(name, volume)] - {0} == map[];
  }

  lemma StoredLater(s: State, name: string, volume: Volume)
    requires s.calls == map[]
    ensures Exec(s, StoreEvents(name, volume, false)) ==
            Some(s.(volumes := s.volumes[name := volume], queue := s.queue.Add(name), accepted := s.accepted + {name},
                    offered := s.offered + {(name, volume)}))
  {
    var es := [Begin(0, name, volume), FirstSave(0, false)];
    Two(s, Begin(0, name, volume), FirstSave(0, false));
    var s2 := s.(calls := map[0 := ToKeep(name, volume)], offered := s.offered + {(name, volume)});
    assert map[0 := Calling(name, volume)][0 := ToKeep(name, volume)] == map[0 := ToKeep(name, volume)];
    var s3 := s2.(calls := map[0 := ToAdd(name)], volumes := s.volumes[name := volume]);
    assert map[0 := ToKeep(name, volume)][0 := ToAdd(name)] == map[0 := ToAdd(name)];
    Extend(s, es, s2, Keep(0), es + [Keep(0)]);
    Extend(s, es + [Keep(0)], s3, Add(0), StoreEvents(name, volume, false));
    assert map[0 := ToAdd(name)] - {0} == map[];
  }

  /** processNextWorkItem as atomic events. */
  ghost function WorkEvents(s: State, name: string, ok: bool, delay: bool): seq<Event> {
    [Get(name), Load(name)]
    + (if name !in s.volumes then []
       else if ok then [Save(name, true), Drop(name)]
       else [Save(name, false), Requeue(name, delay)])
    + [Finish(name)]
  }

  lemma Taken(s: State, name: string)
    requires s.workers == map[] && name in s.queue.dirty && name !in s.queue.processing
    ensures Exec(s, [Get(name), Load(name)]) ==
            Some(s.(queue := s.queue.Get(name),
                    workers := map[name := if name in s.volumes then Loaded(s.volumes[name]) else Finishing]))
  {
    Two(s, Get(name), Load(name));
    assert map[name := Got][name := Finishing] == map[name := Finishing];
    if name in s.volumes {
      assert map[name := Got][name := Loaded(s.volumes[name])] == map[name := Loaded(s.volumes[name])];
    }
  }

  lemma Finished(s: State, es: seq<Event>, mid: State, name: string)
    requires Exec(s, es) == Some(mid) && mid.workers == map[name := Finishing]
    ensures Exec(s, es + [Finish(name)]) == Some(mid.(workers := map[], queue := mid.queue.Done(name)))
  {
    ExecThen(s, es, mid, Finish(name));
    assert map[name := Finishing] - {name} == map[];
  }

  lemma WorkedOnNothing(s: State, name: string, ok: bool, delay: bool)
    requires s.workers == map[] && name in s.queue.dirty && name !in s.queue.processing && name !in s.volumes
    ensures Exec(s, WorkEvents(s, name, ok, delay)) == Some(s.(queue := s.queue.Get(name).Done(name)))
  {
    Taken(s, name);
    var es := [Get(name), Load(name)];
    assert es + [] == es;
    Finished(s, es, Exec(s, es).value, name);
  }

  lemma WorkedAndSaved(s: State, name: string, delay: bool)
    requires s.workers == map[] && name in s.queue.dirty && name !in s.queue.processing && name in s.volumes
    ensures Exec(s, WorkEvents(s, name, true, delay)) ==
            Some(s.(queue := s.queue.Get(name).Done(name), saved := s.saved[name := s.volumes[name]],
                    volumes := s.volumes - {name}))
  {
    Taken(s, name);
    var es := [Get(name), Load(name)];
    var s2 := Exec(s, es).value;
    var s3 := s2.(workers := map[name := Saved], saved := s.saved[name := s.volumes[name]]);
    assert s2.workers[name := Saved] == map[name := Saved];
    Extend(s, es, s2, Save(name, true), es + [Save(name, true)]);
    var s4 := s3.(workers := map[name := Finishing], volumes := s.volumes - {name});
    assert s3.workers[name := Finishing] == map[name := Finishing];
    Extend(s, es + [Save(name, true)], s3, Drop(name), es + [Save(name, true), Drop(name)]);
    Finished(s, es + [Save(name, true), Drop(name)], s4, name);
  }

  lemma WorkedAndRequeued(s: State, name: string, delay: bool)
    requires s.workers == map[] && name in s.queue.dirty && name !in s.queue.processing && name in s.volumes
    ensures var taken := s.queue.Get(name);
            Exec(s, WorkEvents(s, name, false, delay)) ==
            Some(s.(queue := (if delay then taken.AddAfter(name) else taken.Add(name)).Done(name)))
  {
    Taken(s, name);
    var es := [Get(name), Load(name)];
    var s2 := Exec(s, es).value;
    var s3 := s2.(workers := map[name := Unsaved]);
    assert s2.workers[name := Unsaved] == map[name := Unsaved];
    Extend(s, es, s2, Save(name, false), es + [Save(name, false)]);
    var s4 := s3.(workers := map[name := Finishing],
                  queue := if delay then s3.queue.AddAfter(name) else s3.queue.Add(name));
    assert s3.workers[name := Finishing] == map[name := Finishing];
    Extend(s, es + [Save(name, false)], s3, Requeue(name, delay), es + [Save(name, false), Requeue(name, delay)]);
    Finished(s, es + [Save(name, false), Requeue(name, delay)], s4, name);
  }

  /** queueStore with its map and queue changed in place; the ghost fields are what happened so far. */
  class Store {
    var volumes: map<string, Volume>
    var queue: Queue
    ghost var saved: map<string, Volume>
    ghost var accepted: set<string>
    ghost var offered: set<(string, Volume)>

    constructor ()
      ensures Valid() && View() == Init()
    {
      volumes, queue, saved, accepted, offered := map[], Queue({}, {}, {}), map[], {}, {};
    }

    /** The fields as a state of the machine above, with no call or worker in flight. */
    ghost function View(): State
      reads this
    {
      State(volumes, queue, map[], map[], saved, accepted, offered)
    }

    ghost predicate Valid()
      reads this
    {
      forall name: string :: Safe(View(), name)
    }

    /**
     `ok` when the first Create succeeds or finds the PV there. The caller never sees an error; the call is
     the run of its atomic events, and what it accepts is saved or kept and queued.
     */
    method StoreVolume(name: string, volume: Volume, ok: bool)
      requires Valid()
      modifies this
      ensures Valid()
      ensures Exec(old(View()), StoreEvents(name, volume, ok)) == Some(View())
      ensures name in accepted
      ensures if ok then name in saved && saved[name] == volume && volumes == old(volumes)
              else volumes == old(volumes)[name := volume] && queue.Has(name) && saved == old(saved)
    {
      ghost var before := View();
      if ok {
        StoredAtOnce(before, name, volume);
        saved := saved[name := volume];
      } else {
        StoredLater(before, name, volume);
        volumes := volumes[name := volume];
        queue := queue.Add(name);
      }
      accepted, offered := accepted + {name}, offered + {(name, volume)};
      forall n
        ensures Safe(View(), n)
      {
        SafeAlways(before, StoreEvents(name, volume, ok), View(), n);
      }
    }

    /**
     One item is the run of its atomic events: a kept volume is dropped only after it was saved, and stays
     queued otherwise.
     */
    method ProcessNextWorkItem(name: string, ok: bool, delay: bool)
      requires Valid() && name in queue.dirty && name !in queue.processing
      modifies this
      ensures Valid()
      ensures Exec(old(View()), WorkEvents(old(View()), name, ok, delay)) == Some(View())
      ensures name in old(volumes) && ok ==>
                name in saved && saved[name] == old(volumes)[name] && volumes == old(volumes) - {name}
      ensures name in old(volumes) && !ok ==> volumes == old(volumes) && saved == old(saved) && queue.Has(name)
      ensures name !in old(volumes) ==> volumes == old(volumes) && saved == old(saved)
      ensures name !in queue.processing
    {
      ghost var before := View();
      queue := queue.Get(name);
      if name in volumes {
        if ok {
          WorkedAndSaved(before, name, delay);
          saved := saved[name := volumes[name]];
          volumes := volumes - {name};
        } else {
          WorkedAndRequeued(before, name, delay);
          queue := if delay then queue.AddAfter(name) else queue.Add(name);
        }
      } else {
        WorkedOnNothing(before, name, ok, delay);
      }
      queue := queue.Done(name);
      forall n
        ensures Safe(View(), n)
      {
        SafeAlways(before, WorkEvents(before, name, ok, delay), View(), n);
      }
    }
  }
}

module BackoffStore {
  import opened Common

  datatype CreateReply = Created | AlreadyExists | Refused(error: nat)

  /** The server holds the PV after this reply. */
  predicate Saves(reply: CreateReply) {
    !reply.Refused?
  }

  /** No attempt before the n-th saved the PV. */
  ghost predicate NoneSaves(creates: nat -> CreateReply, n: int) {
    forall i: nat | i < n :: !Saves(creates(i))
  }

  /** The n-th attempt is the first one that saved the PV. */
  ghost predicate FirstSaves(creates: nat -> CreateReply, n: nat)
    requires n > 0
  {
    NoneSaves(creates, n - 1) && Saves(creates(n - 1))
  }

  /**
   StoreVolume of the blocking store with a back-off of `steps` attempts without a cap. `creates` and
   `deletes` are the replies of the API server and of the provisioner's Delete, attempt by attempt.
   An error is reported exactly when no attempt saved the PV - except that without any step the
   caller is told that a PV was saved which never was.
   */
  method StoreVolume(steps: int, creates: nat -> CreateReply, deletes: nat -> bool)
    returns (error: Option<nat>, createCalls: nat, deleteCalls: nat, saved: bool, assetGone: bool)
    ensures saved <==> !NoneSaves(creates, steps)
    ensures steps >= 1 ==> (error.None? <==> saved)
    ensures steps <= 0 ==> error.None? && !saved
    ensures saved ==> 1 <= createCalls <= steps && FirstSaves(creates, createCalls)
    ensures saved ==> deleteCalls == 0 && !assetGone
    ensures !saved && steps >= 1 ==> createCalls == steps && error == Some(creates(steps - 1).error)
    ensures !saved ==> deleteCalls <= steps || deleteCalls == 0
    ensures !saved ==> (assetGone <==> exists i: nat :: i < steps && deletes(i))
    ensures assetGone ==>
              deleteCalls >= 1 && deletes(deleteCalls - 1) && forall i: nat | i < deleteCalls - 1 :: !deletes(i)
    ensures !saved && !assetGone && steps >= 0 ==> deleteCalls == steps
  {
    var lastSaveError: Option<nat> := None;
    createCalls, deleteCalls, saved, assetGone := 0, 0, false, false;
    var left := steps;
    while left > 0 && !saved
      invariant !saved && steps >= 0 ==> createCalls == steps - left && 0 <= left
      invariant steps < 0 ==> left == steps && createCalls == 0 && !saved
      invariant !saved ==> NoneSaves(creates, createCalls)
      invariant !saved ==> lastSaveError == if createCalls == 0 then None else Some(creates(createCalls - 1).error)
      invariant saved ==> 1 <= createCalls <= steps && FirstSaves(creates, createCalls)
      decreases left, !saved
    {
      var reply := creates(createCalls);
      createCalls := createCalls + 1;
      if reply == Created || reply == AlreadyExists {
        saved := true;
      } else {
        lastSaveError := Some(reply.error);
        left := left - 1;
      }
    }
    if saved {
      return None, createCalls, 0, true, false;
    }
    left := steps;
    while left > 0 && !assetGone
      invariant !assetGone && steps >= 0 ==> deleteCalls == steps - left && 0 <= left
      invariant steps < 0 ==> left == steps && deleteCalls == 0 && !assetGone
      invariant assetGone ==> 1 <= deleteCalls <= steps && deletes(deleteCalls - 1)
      invariant forall i: nat | i < (if assetGone then deleteCalls - 1 else deleteCalls) :: !deletes(i)
      decreases left, !assetGone
    {
      var ok := deletes(deleteCalls);
      deleteCalls := deleteCalls + 1;
      if ok {
        assetGone := true;
      } else {
        left := left - 1;
      }
    }
    error := lastSaveError;
  }
}
