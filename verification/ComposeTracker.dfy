/** The request tracker of the Gmail compose script: which insertion requests are
    pending or done, who waits for them, and which timers are armed.

    Callers, answers, started insertions and removed entries are numbered or listed
    as they come, so that a state carries its history. */
module ComposeTracker {
  import opened Wrappers

  const INSERT_REQUEST_MAX_ENTRIES := 64

  datatype Response = Inserted(ok: bool) | TimedOut | EvictedError

  datatype Timer = PendingTimer(id: string) | CleanupTimer(id: string)

  datatype Entry = Entry(callbacks: seq<nat>, cleanup: Option<nat>, pending: Option<nat>, response: Option<Response>,
                         done: bool)

  datatype Answer = Answer(caller: nat, response: Response)

  datatype State = State(
    entries: map<string, Entry>,
    /** The map's iteration order: by insertion. */
    order: seq<string>,
    timers: map<nat, Timer>,
    nextTimer: nat,
    /** For each tracked caller so far, the request it came with. */
    callers: seq<string>,
    answers: seq<Answer>,
    started: multiset<string>,
    removed: multiset<string>,
    lateNotices: seq<string>)

  function Empty(): State {
    State(map[], [], map[], 0, [], [], multiset{}, multiset{}, [])
  }

  function Without(order: seq<string>, id: string): seq<string> {
    if order == [] then []
    else
      var last := order[|order| - 1];
      Without(order[..|order| - 1], id) + (if last == id then [] else [last])
  }

  function Disarm(timers: map<nat, Timer>, timer: Option<nat>): map<nat, Timer> {
    if timer.Some? then timers - {timer.value} else timers
  }

  function AnswerAll(callbacks: seq<nat>, response: Response): seq<Answer> {
    seq(|callbacks|, i requires 0 <= i < |callbacks| => Answer(callbacks[i], response))
  }

  function Delete(s: State, id: string): State {
    s.(entries := s.entries - {id}, order := Without(s.order, id), removed := s.removed + multiset{id})
  }

  function Evict(s: State, id: string): State
    requires id in s.entries
  {
    var entry := s.entries[id];
    var told := if entry.done then [] else AnswerAll(entry.callbacks, EvictedError);
    Delete(s.(timers := Disarm(Disarm(s.timers, entry.cleanup), entry.pending), answers := s.answers + told), id)
  }

  /** The oldest completed entry. */
  function OldestDone(s: State, from: nat): (r: Option<string>)
    requires forall id :: id in s.order ==> id in s.entries
    ensures r.Some? ==> r.value in s.order && s.entries[r.value].done
    decreases |s.order| - from
  {
    if from >= |s.order| then None
    else if s.entries[s.order[from]].done then Some(s.order[from])
    else OldestDone(s, from + 1)
  }

  function Victim(s: State): (r: string)
    requires s.order != [] && forall id :: id in s.order ==> id in s.entries
    ensures r in s.order
  {
    var done := OldestDone(s, 0);
    if done.Some? then done.value else s.order[0]
  }

  function Finish(s: State, id: string, response: Response): State {
    if id !in s.entries then
      if response == Inserted(true) then s.(lateNotices := s.lateNotices + [id]) else s
    else
      var entry := s.entries[id];
      var timers := Disarm(Disarm(s.timers, entry.pending), entry.cleanup);
      s.(entries := s.entries[id := Entry([], Some(s.nextTimer), None, Some(response), true)],
         timers := timers[s.nextTimer := CleanupTimer(id)],
         nextTimer := s.nextTimer + 1,
         answers := s.answers + AnswerAll(entry.callbacks, response),
         lateNotices := if entry.done && response == Inserted(true) then s.lateNotices + [id] else s.lateNotices)
  }

  function Track(s: State, id: string): State {
    s.(entries := s.entries[id := Entry([|s.callers|], None, Some(s.nextTimer), None, false)],
       order := s.order + [id],
       timers := s.timers[s.nextTimer := PendingTimer(id)],
       nextTimer := s.nextTimer + 1,
       callers := s.callers + [id],
       started := s.started + multiset{id})
  }

  function Rejoin(s: State, id: string): State
    requires id in s.entries
  {
    var entry := s.entries[id];
    var joined := s.(callers := s.callers + [id]);
    if entry.done && entry.response.Some?
        then joined.(answers := s.answers + [Answer(|s.callers|, entry.response.value)])
    else joined.(entries := s.entries[id := entry.(callbacks := entry.callbacks + [|s.callers|])])
  }

  function Handle(s: State, id: string): State
    requires forall x :: x in s.order ==> x in s.entries
  {
    if id in s.entries then Rejoin(s, id)
    else
      var tracked := Track(s, id);
      if |tracked.order| > INSERT_REQUEST_MAX_ENTRIES then Evict(tracked, Victim(tracked)) else tracked
  }

  // ---------------------------------------------------------------- invariant

  ghost predicate Distinct<T(!new)>(s: seq<T>) {
    forall i, j :: 0 <= i < j < |s| ==> s[i] != s[j]
  }

  /** A pending entry has exactly its pending timer, a done entry exactly its cleanup
      timer. */
  ghost predicate EntryOk(id: string, e: Entry, timers: map<nat, Timer>) {
    if e.done then
      e.callbacks == [] && e.pending == None && e.response.Some?
      && e.cleanup.Some? && e.cleanup.value in timers && timers[e.cleanup.value] == CleanupTimer(id)
    else
      e.callbacks != [] && e.cleanup == None && e.response == None
      && e.pending.Some? && e.pending.value in timers && timers[e.pending.value] == PendingTimer(id)
  }

  /** No timer outlives its entry. */
  ghost predicate TimerOk(t: nat, timer: Timer, entries: map<string, Entry>, next: nat) {
    && t < next
    && timer.id in entries
    && (timer.PendingTimer? ==> entries[timer.id].pending == Some(t))
    && (timer.CleanupTimer? ==> entries[timer.id].cleanup == Some(t))
  }

  ghost predicate Told(answers: seq<Answer>, caller: nat) {
    exists i :: 0 <= i < |answers| && answers[i].caller == caller
  }

  ghost predicate Waits(entries: map<string, Entry>, callers: seq<string>, caller: nat) {
    caller < |callers| && callers[caller] in entries && caller in entries[callers[caller]].callbacks
  }

  /** The callers that wait in an entry came with its request, and wait there once. */
  ghost predicate WaitersOk(id: string, e: Entry, callers: seq<string>) {
    && Distinct(e.callbacks)
    && (forall c :: c in e.callbacks ==> c < |callers| && callers[c] == id)
  }

  /** Every tracked caller is either told, once, or waits. */
  ghost predicate CallersOk(entries: map<string, Entry>, callers: seq<string>, answers: seq<Answer>) {
    && (forall id :: id in entries ==> WaitersOk(id, entries[id], callers))
    && (forall c :: 0 <= c < |callers| ==> (Told(answers, c) <==> !Waits(entries, callers, c)))
    && (forall i :: 0 <= i < |answers| ==> answers[i].caller < |callers|)
    && (forall i, j :: 0 <= i < j < |answers| ==> answers[i].caller != answers[j].caller)
  }

  /** One insertion for every entry there is or was. */
  ghost predicate StartedOk(s: State) {
    forall id :: s.started[id] == s.removed[id] + (if id in s.entries then 1 else 0)
  }

  ghost predicate OrderOk(s: State) {
    Distinct(s.order) && (forall id :: id in s.order <==> id in s.entries)
  }

  ghost predicate TimersOk(entries: map<string, Entry>, timers: map<nat, Timer>, next: nat) {
    && (forall id :: id in entries ==> EntryOk(id, entries[id], timers))
    && (forall t :: t in timers ==> TimerOk(t, timers[t], entries, next))
  }

  ghost predicate Inv(s: State) {
    && OrderOk(s)
    && TimersOk(s.entries, s.timers, s.nextTimer)
    && CallersOk(s.entries, s.callers, s.answers)
    && StartedOk(s)
  }

  // ------------------------------------------------------------- preservation

  lemma {:induction false} WithoutIs(order: seq<string>, id: string)
    requires Distinct(order)
    ensures Distinct(Without(order, id)) && (forall x :: x in Without(order, id) <==> x in order && x != id)
    ensures |Without(order, id)| == |order| - (if id in order then 1 else 0)
  {
    if order != [] {
      var init, last := order[..|order| - 1], order[|order| - 1];
      assert forall i :: 0 <= i < |init| ==> init[i] == order[i];
      WithoutIs(init, id);
      assert last !in init;
      assert order == init + [last];
    }
  }

  lemma ToldMore(answers: seq<Answer>, callbacks: seq<nat>, response: Response, c: nat)
    ensures Told(answers + AnswerAll(callbacks, response), c) <==> Told(answers, c) || c in callbacks
  {
    var more := answers + AnswerAll(callbacks, response);
    if Told(answers, c) {
      var i :| 0 <= i < |answers| && answers[i].caller == c;
      assert more[i].caller == c;
    }
    if c in callbacks {
      var i :| 0 <= i < |callbacks| && callbacks[i] == c;
      assert more[|answers| + i].caller == c;
    }
  }

  /** Answering everybody who waits in an entry, which then goes or is done. */
  lemma Released(entries: map<string, Entry>, callers: seq<string>, answers: seq<Answer>, id: string,
                 after: map<string, Entry>, response: Response)
    requires CallersOk(entries, callers, answers) && id in entries
    requires after == entries - {id}
             || (after.Keys == entries.Keys && after == entries[id := after[id]] && after[id].callbacks == [])
    ensures CallersOk(after, callers, answers + AnswerAll(entries[id].callbacks, response))
  {
    var callbacks := entries[id].callbacks;
    var more := answers + AnswerAll(callbacks, response);
    assert WaitersOk(id, entries[id], callers);
    forall k | 0 <= k < |callbacks|
      ensures callbacks[k] < |callers| && callers[callbacks[k]] == id
    {
      assert callbacks[k] in callbacks;
    }
    forall c | 0 <= c < |callers|
      ensures Told(more, c) <==> !Waits(after, callers, c)
    {
      ToldMore(answers, callbacks, response, c);
      if c in callbacks {
        assert callers[c] == id;
      }
    }
    forall i | 0 <= i < |more|
      ensures more[i].caller < |callers|
    {
      assert more[i] == if i < |answers| then answers[i] else Answer(callbacks[i - |answers|], response);
    }
    forall i, j | 0 <= i < j < |more|
      ensures more[i].caller != more[j].caller
    {
      if i < |answers| <= j {
        assert Waits(entries, callers, callbacks[j - |answers|]);
        assert Told(answers, answers[i].caller);
      }
    }
    forall x | x in after
      ensures WaitersOk(x, after[x], callers)
    {
      assert WaitersOk(x, entries[x], callers);
    }
  }

  lemma EvictTimers(s: State, id: string)
    requires OrderOk(s) && TimersOk(s.entries, s.timers, s.nextTimer) && id in s.entries
    ensures var v := Evict(s, id); TimersOk(v.entries, v.timers, v.nextTimer)
  {
    var v := Evict(s, id);
    assert EntryOk(id, s.entries[id], s.timers);
    forall x | x in v.entries
      ensures EntryOk(x, v.entries[x], v.timers)
    {
      assert EntryOk(x, s.entries[x], s.timers);
    }
    forall t | t in v.timers
      ensures TimerOk(t, v.timers[t], v.entries, v.nextTimer)
    {
      assert TimerOk(t, s.timers[t], s.entries, s.nextTimer);
    }
  }

  lemma NothingToTell(s: State, id: string, response: Response)
    requires TimersOk(s.entries, s.timers, s.nextTimer) && id in s.entries && s.entries[id].done
    ensures s.entries[id].callbacks == [] && s.answers + AnswerAll(s.entries[id].callbacks, response) == s.answers
  {
    assert EntryOk(id, s.entries[id], s.timers);
  }

  lemma EvictKeeps(s: State, id: string)
    requires Inv(s) && id in s.entries
    ensures Inv(Evict(s, id)) && |Evict(s, id).order| == |s.order| - 1
  {
    hide TimersOk, CallersOk;
    EvictTimers(s, id);
    WithoutIs(s.order, id);
    if s.entries[id].done {
      NothingToTell(s, id, EvictedError);
    }
    Released(s.entries, s.callers, s.answers, id, s.entries - {id}, EvictedError);
  }

  lemma DeleteTimers(s: State, t: nat)
    requires OrderOk(s) && TimersOk(s.entries, s.timers, s.nextTimer) && t in s.timers && s.timers[t].CleanupTimer?
    ensures var id := s.timers[t].id;
            var v := Delete(s.(timers := s.timers - {t}), id);
            id in s.entries && s.entries[id].done && TimersOk(v.entries, v.timers, v.nextTimer)
  {
    var id := s.timers[t].id;
    assert TimerOk(t, s.timers[t], s.entries, s.nextTimer);
    assert EntryOk(id, s.entries[id], s.timers);
    var v := Delete(s.(timers := s.timers - {t}), id);
    forall x | x in v.entries
      ensures EntryOk(x, v.entries[x], v.timers)
    {
      assert EntryOk(x, s.entries[x], s.timers);
    }
    forall u | u in v.timers
      ensures TimerOk(u, v.timers[u], v.entries, v.nextTimer)
    {
      assert TimerOk(u, s.timers[u], s.entries, s.nextTimer);
    }
  }

  lemma DeleteKeeps(s: State, t: nat)
    requires Inv(s) && t in s.timers && s.timers[t].CleanupTimer?
    ensures Inv(Delete(s.(timers := s.timers - {t}), s.timers[t].id))
    ensures |Delete(s.(timers := s.timers - {t}), s.timers[t].id).order| <= |s.order|
  {
    hide TimersOk, CallersOk;
    DeleteTimers(s, t);
    var id := s.timers[t].id;
    WithoutIs(s.order, id);
    NothingToTell(s, id, EvictedError);
    Released(s.entries, s.callers, s.answers, id, s.entries - {id}, EvictedError);
  }

  lemma FinishTimers(s: State, id: string, response: Response)
    requires TimersOk(s.entries, s.timers, s.nextTimer) && id in s.entries
    ensures var v := Finish(s, id, response); TimersOk(v.entries, v.timers, v.nextTimer)
  {
    var v := Finish(s, id, response);
    assert EntryOk(id, s.entries[id], s.timers);
    forall x | x in v.entries
      ensures EntryOk(x, v.entries[x], v.timers)
    {
      assert EntryOk(x, s.entries[x], s.timers);
      if x != id {
        var t := if s.entries[x].done then s.entries[x].cleanup.value else s.entries[x].pending.value;
        assert TimerOk(t, s.timers[t], s.entries, s.nextTimer);
      }
    }
    forall t | t in v.timers
      ensures TimerOk(t, v.timers[t], v.entries, v.nextTimer)
    {
      if t != s.nextTimer {
        assert TimerOk(t, s.timers[t], s.entries, s.nextTimer);
      }
    }
  }

  lemma FinishKeeps(s: State, id: string, response: Response)
    requires Inv(s)
    ensures Inv(Finish(s, id, response)) && Finish(s, id, response).order == s.order
  {
    hide TimersOk, CallersOk;
    if id in s.entries {
      FinishTimers(s, id, response);
      var after := Finish(s, id, response).entries;
      assert after == s.entries[id := after[id]] && after.Keys == s.entries.Keys;
      Released(s.entries, s.callers, s.answers, id, after, response);
    }
  }

  lemma TrackTimers(s: State, id: string)
    requires TimersOk(s.entries, s.timers, s.nextTimer) && id !in s.entries
    ensures var v := Track(s, id); TimersOk(v.entries, v.timers, v.nextTimer)
  {
    var v := Track(s, id);
    forall x | x in v.entries
      ensures EntryOk(x, v.entries[x], v.timers)
    {
      if x != id {
        assert EntryOk(x, s.entries[x], s.timers);
        var t := if s.entries[x].done then s.entries[x].cleanup.value else s.entries[x].pending.value;
        assert TimerOk(t, s.timers[t], s.entries, s.nextTimer);
      }
    }
    forall t | t in v.timers
      ensures TimerOk(t, v.timers[t], v.entries, v.nextTimer)
    {
      if t != s.nextTimer {
        assert TimerOk(t, s.timers[t], s.entries, s.nextTimer);
      }
    }
  }

  /** One more caller, who waits in an entry. */
  lemma Joined(entries: map<string, Entry>, callers: seq<string>, answers: seq<Answer>, id: string,
               after: map<string, Entry>)
    requires CallersOk(entries, callers, answers)
    requires id in after && after == entries[id := after[id]]
    requires after[id].callbacks == (if id in entries then entries[id].callbacks else []) + [|callers|]
    ensures CallersOk(after, callers + [id], answers)
  {
    var more := callers + [id];
    forall x | x in after
      ensures WaitersOk(x, after[x], more)
    {
      if x in entries {
        assert WaitersOk(x, entries[x], callers);
        forall k | 0 <= k < |entries[x].callbacks|
          ensures entries[x].callbacks[k] < |callers|
        {
          assert entries[x].callbacks[k] in entries[x].callbacks;
        }
      }
    }
    forall c | 0 <= c < |more|
      ensures Told(answers, c) <==> !Waits(after, more, c)
    {
      if c < |callers| {
        assert Waits(entries, callers, c) <==> Waits(after, more, c);
      } else {
        assert |callers| in after[id].callbacks;
      }
    }
  }

  lemma TrackKeeps(s: State, id: string)
    requires Inv(s) && id !in s.entries
    ensures Inv(Track(s, id))
  {
    hide TimersOk, CallersOk;
    TrackTimers(s, id);
    Joined(s.entries, s.callers, s.answers, id, Track(s, id).entries);
  }

  /** One more caller, who is told at once. */
  lemma ToldAtOnce(entries: map<string, Entry>, callers: seq<string>, answers: seq<Answer>, id: string,
                   response: Response)
    requires CallersOk(entries, callers, answers)
    ensures CallersOk(entries, callers + [id], answers + [Answer(|callers|, response)])
  {
    var more, told := callers + [id], answers + [Answer(|callers|, response)];
    forall x | x in entries
      ensures WaitersOk(x, entries[x], more)
    {
      assert WaitersOk(x, entries[x], callers);
    }
    assert told == answers + AnswerAll([|callers|], response);
    forall c | 0 <= c < |more|
      ensures Told(told, c) <==> !Waits(entries, more, c)
    {
      ToldMore(answers, [|callers|], response, c);
      if c < |callers| {
        assert Waits(entries, callers, c) <==> Waits(entries, more, c);
      } else {
        NobodyWaits(entries, callers, answers, id);
      }
    }
  }

  lemma NobodyWaits(entries: map<string, Entry>, callers: seq<string>, answers: seq<Answer>, id: string)
    requires CallersOk(entries, callers, answers)
    ensures !Waits(entries, callers + [id], |callers|) && !Told(answers, |callers|)
  {
    if id in entries {
      assert WaitersOk(id, entries[id], callers);
    }
  }

  lemma RejoinTimers(s: State, id: string)
    requires TimersOk(s.entries, s.timers, s.nextTimer) && id in s.entries
    ensures var v := Rejoin(s, id); TimersOk(v.entries, v.timers, v.nextTimer)
    ensures s.entries[id].done ==> s.entries[id].response.Some?
  {
    var v := Rejoin(s, id);
    assert EntryOk(id, s.entries[id], s.timers);
    forall x | x in v.entries
      ensures EntryOk(x, v.entries[x], v.timers)
    {
      assert EntryOk(x, s.entries[x], s.timers);
    }
    forall t | t in v.timers
      ensures TimerOk(t, v.timers[t], v.entries, v.nextTimer)
    {
      assert TimerOk(t, s.timers[t], s.entries, s.nextTimer);
    }
  }

  lemma RejoinKeeps(s: State, id: string)
    requires Inv(s) && id in s.entries
    ensures Inv(Rejoin(s, id)) && Rejoin(s, id).order == s.order
  {
    hide TimersOk, CallersOk;
    RejoinTimers(s, id);
    if s.entries[id].done {
      ToldAtOnce(s.entries, s.callers, s.answers, id, s.entries[id].response.value);
    } else {
      Joined(s.entries, s.callers, s.answers, id, Rejoin(s, id).entries);
    }
  }

  lemma HandleKeeps(s: State, id: string)
    requires Inv(s) && |s.order| <= INSERT_REQUEST_MAX_ENTRIES
    ensures Inv(Handle(s, id)) && |Handle(s, id).order| <= INSERT_REQUEST_MAX_ENTRIES
  {
    hide TimersOk, CallersOk, StartedOk;
    if id in s.entries {
      RejoinKeeps(s, id);
    } else {
      var tracked := Track(s, id);
      TrackKeeps(s, id);
      if |tracked.order| > INSERT_REQUEST_MAX_ENTRIES {
        EvictKeeps(tracked, Victim(tracked));
      }
    }
  }

  // --------------------------------------------------------------------- runs

  /** What can happen, in any order: a tracked request, a timer that fires, and an
      insertion that completes, at any time after it was started. */
  datatype Event =
    | Request(id: string) | PendingFires(timer: nat) | CleanupFires(timer: nat) | Completes(id: string, ok: bool)

  predicate Enabled(s: State, e: Event) {
    match e
    case Request(_) => forall x :: x in s.order ==> x in s.entries
    case PendingFires(t) => t in s.timers && s.timers[t].PendingTimer?
    case CleanupFires(t) => t in s.timers && s.timers[t].CleanupTimer?
    case Completes(id, _) => id in s.started
  }

  function Step(s: State, e: Event): State
    requires Enabled(s, e)
  {
    match e
    case Request(id) => Handle(s, id)
    case PendingFires(t) => Finish(s.(timers := s.timers - {t}), s.timers[t].id, TimedOut)
    case CleanupFires(t) => Delete(s.(timers := s.timers - {t}), s.timers[t].id)
    case Completes(id, ok) => Finish(s, id, Inserted(ok))
  }

  /** A pending timer that has fired is what finishing would disarm. */
  lemma FiredTimer(s: State, t: nat)
    requires Inv(s) && t in s.timers && s.timers[t].PendingTimer?
    ensures Finish(s.(timers := s.timers - {t}), s.timers[t].id, TimedOut) == Finish(s, s.timers[t].id, TimedOut)
  {
    assert TimerOk(t, s.timers[t], s.entries, s.nextTimer);
    hide Inv, AnswerAll;
    assert s.timers - {t} - {t} == s.timers - {t};
  }

  lemma StepKeeps(s: State, e: Event)
    requires Inv(s) && |s.order| <= INSERT_REQUEST_MAX_ENTRIES && Enabled(s, e)
    ensures Inv(Step(s, e)) && |Step(s, e).order| <= INSERT_REQUEST_MAX_ENTRIES
  {
    hide Inv, Finish, Delete, Handle;
    match e
    case Request(id) => HandleKeeps(s, id);
    case PendingFires(t) => FiredTimer(s, t); FinishKeeps(s, s.timers[t].id, TimedOut);
    case CleanupFires(t) => DeleteKeeps(s, t);
    case Completes(id, ok) => FinishKeeps(s, id, Inserted(ok));
  }

  function Run(events: seq<Event>): Option<State> {
    if events == [] then Some(Empty())
    else
      var before := Run(events[..|events| - 1]);
      var e := events[|events| - 1];
      if before.Some? && Enabled(before.value, e) then Some(Step(before.value, e)) else None
  }

  /** Main result: after every order of events, each tracked caller was answered once
      or waits in exactly one pending entry; a pending entry has exactly its pending
      timer and a done entry exactly its cleanup timer; no timer outlives its entry;
      and there are at most 64 entries. */
  lemma {:induction false} TrackerInvariant(events: seq<Event>)
    requires Run(events).Some?
    ensures Inv(Run(events).value) && |Run(events).value.order| <= INSERT_REQUEST_MAX_ENTRIES
  {
    if events == [] {
    } else {
      TrackerInvariant(events[..|events| - 1]);
      hide Inv, Step, Enabled;
      StepKeeps(Run(events[..|events| - 1]).value, events[|events| - 1]);
    }
  }

  /** Main result: an insertion is started again only for a request that was evicted
      or whose time was over. */
  lemma InsertionsStarted(events: seq<Event>, id: string)
    requires Run(events).Some?
    ensures var s := Run(events).value;
            && s.started[id] <= s.removed[id] + 1
            && (id in s.entries <==> s.started[id] == s.removed[id] + 1)
  {
    TrackerInvariant(events);
    hide OrderOk, TimersOk, CallersOk, Run;
  }

  /** What a caller was told stays told; nothing is ever taken back. */
  lemma AnswersOnlyGrow(s: State, e: Event)
    requires Enabled(s, e)
    ensures s.answers <= Step(s, e).answers && s.callers <= Step(s, e).callers
            && s.lateNotices <= Step(s, e).lateNotices
  {
  }

  /** The first completed entry in insertion order, if there is one. */
  lemma {:induction false} OldestDoneIs(s: State, from: nat)
    requires (forall id :: id in s.order ==> id in s.entries) && from <= |s.order|
    ensures match OldestDone(s, from)
            case None => forall i :: from <= i < |s.order| ==> !s.entries[s.order[i]].done
            case Some(id) => exists k :: && from <= k < |s.order| && s.order[k] == id && s.entries[id].done
                                         && (forall i :: from <= i < k ==> !s.entries[s.order[i]].done)
    decreases |s.order| - from
  {
    if from < |s.order| {
      if s.entries[s.order[from]].done {
        assert s.order[from] == OldestDone(s, from).value;
      } else {
        OldestDoneIs(s, from + 1);
      }
    }
  }

  /** The victim is the oldest completed entry or, when nothing is done, the oldest. */
  lemma VictimIs(s: State)
    requires OrderOk(s) && s.order != []
    ensures var v := Victim(s);
            && v in s.entries
            && (!s.entries[v].done ==> v == s.order[0] && forall id :: id in s.entries ==> !s.entries[id].done)
            && (s.entries[v].done ==> exists k :: && 0 <= k < |s.order| && s.order[k] == v
                                                  && (forall i :: 0 <= i < k ==> !s.entries[s.order[i]].done))
  {
    OldestDoneIs(s, 0);
    if OldestDone(s, 0) == None {
      forall id | id in s.entries
        ensures !s.entries[id].done
      {
        assert id in s.order;
      }
    }
  }

  /** A new request is never the one that makes room, and a pending one makes room
      only when nothing is done. */
  lemma NewRequestSurvives(s: State, id: string)
    requires Inv(s) && |s.order| <= INSERT_REQUEST_MAX_ENTRIES && id !in s.entries
    ensures var v := Handle(s, id);
            && id in v.entries && !v.entries[id].done && v.entries[id].callbacks == [|s.callers|]
            && v.started == s.started + multiset{id}
            && (forall x, y :: x in s.entries && x !in v.entries && !s.entries[x].done && y in s.entries ==>
                  !s.entries[y].done)
  {
    hide TimersOk, CallersOk, StartedOk, Victim, Disarm, Without, Distinct;
    TrackKeeps(s, id);
    var tracked := Track(s, id);
    if |tracked.order| > INSERT_REQUEST_MAX_ENTRIES {
      VictimIs(tracked);
      assert tracked.order[0] == s.order[0] && s.order[0] in s.order;
      forall x, y | x in s.entries && x !in Handle(s, id).entries && !s.entries[x].done && y in s.entries
        ensures !s.entries[y].done
      {
        assert x == Victim(tracked) && tracked.entries[y] == s.entries[y];
      }
    }
  }

  /** A repeated request starts nothing: it is told the cached response, or waits. */
  lemma RetryStartsNothing(s: State, id: string)
    requires Inv(s) && id in s.entries
    ensures var v := Handle(s, id);
            && v.started == s.started && v.order == s.order && v.timers == s.timers
            && (if s.entries[id].done then v.answers == s.answers + [Answer(|s.callers|, s.entries[id].response.value)]
                else v.answers == s.answers && Waits(v.entries, v.callers, |s.callers|))
  {
    assert EntryOk(id, s.entries[id], s.timers);
  }

  /** Main result: a success is always told: to everybody who waits for it or, when
      they were already told something else, by a late notice; and it replaces the
      cached response. */
  lemma SuccessIsTold(s: State, id: string)
    requires Inv(s)
    ensures var v := Finish(s, id, Inserted(true));
            if id in s.entries && !s.entries[id].done then
              forall c :: c in s.entries[id].callbacks ==> Answer(c, Inserted(true)) in v.answers
            else v.lateNotices == s.lateNotices + [id]
    ensures id in s.entries ==> Finish(s, id, Inserted(true)).entries[id].response == Some(Inserted(true))
  {
    if id in s.entries && !s.entries[id].done {
      var callbacks := s.entries[id].callbacks;
      forall c | c in callbacks
        ensures Answer(c, Inserted(true)) in AnswerAll(callbacks, Inserted(true))
      {
        var i :| 0 <= i < |callbacks| && callbacks[i] == c;
        assert AnswerAll(callbacks, Inserted(true))[i] == Answer(c, Inserted(true));
      }
    }
  }

  /** Everybody of a list was told the same, in order, and nobody else was told. */
  ghost predicate TellsAll(before: seq<Answer>, callbacks: seq<nat>, response: Response, after: seq<Answer>) {
    && before <= after && |after| == |before| + |callbacks|
    && (forall i :: 0 <= i < |callbacks| ==> after[|before| + i] == Answer(callbacks[i], response))
  }

  /** The entry is done with this response, with nobody waiting and its cleanup timer
      armed. */
  ghost predicate DoneWith(s: State, id: string, response: Response) {
    && id in s.entries
    && s.entries[id].done && s.entries[id].response == Some(response) && s.entries[id].callbacks == []
    && s.entries[id].pending == None && s.entries[id].cleanup.Some?
    && s.entries[id].cleanup.value in s.timers && s.timers[s.entries[id].cleanup.value] == CleanupTimer(id)
  }

  /** What a response does: whoever waits for that request is told it, nobody else is,
      and it is what later callers are told. A success that comes late is announced. */
  lemma FinishTells(s: State, id: string, response: Response)
    requires Inv(s)
    ensures var v := Finish(s, id, response);
            if id in s.entries then
              && TellsAll(s.answers, s.entries[id].callbacks, response, v.answers) && DoneWith(v, id, response)
              && v.entries == s.entries[id := v.entries[id]]
              && (forall t :: t in v.timers && v.timers[t].id == id ==> Some(t) == v.entries[id].cleanup)
              && v.lateNotices
                 == s.lateNotices + (if s.entries[id].done && response == Inserted(true) then [id] else [])
            else v == s.(lateNotices := s.lateNotices + (if response == Inserted(true) then [id] else []))
  {
    if id in s.entries {
      var timers := Disarm(Disarm(s.timers, s.entries[id].pending), s.entries[id].cleanup);
      forall t | t in timers
        ensures timers[t].id != id
      {
        assert TimerOk(t, s.timers[t], s.entries, s.nextTimer);
      }
    }
  }

  /** Whoever waits in an evicted entry is told so, nobody else is, and nothing of the
      entry is left. */
  lemma EvictTells(s: State, id: string)
    requires Inv(s) && id in s.entries
    ensures var v := Evict(s, id);
            && TellsAll(s.answers, if s.entries[id].done then [] else s.entries[id].callbacks, EvictedError, v.answers)
            && v.entries == s.entries - {id} && (forall t :: t in v.timers ==> v.timers[t].id != id)
            && v.removed == s.removed + multiset{id} && v.lateNotices == s.lateNotices && v.callers == s.callers
  {
    var timers := Evict(s, id).timers;
    forall t | t in timers
      ensures timers[t].id != id
    {
      assert TimerOk(t, s.timers[t], s.entries, s.nextTimer);
    }
  }

  /** Main result: what each event tells. A pending timer tells everybody who waits that
      the time is over, a completed insertion whether it worked, and a cleanup timer tells
      nobody. */
  lemma EventsTell(s: State, e: Event)
    requires Inv(s) && Enabled(s, e) && !e.Request?
    ensures var v := Step(s, e);
            match e
            case PendingFires(t) =>
              var id := s.timers[t].id;
              && id in s.entries && TellsAll(s.answers, s.entries[id].callbacks, TimedOut, v.answers)
              && DoneWith(v, id, TimedOut) && v.lateNotices == s.lateNotices
            case CleanupFires(t) =>
              v.answers == s.answers && v.entries == s.entries - {s.timers[t].id} && v.lateNotices == s.lateNotices
            case Completes(id, ok) =>
              if id in s.entries then
                TellsAll(s.answers, s.entries[id].callbacks, Inserted(ok), v.answers) && DoneWith(v, id, Inserted(ok))
              else v.answers == s.answers && v.entries == s.entries
            case Request(_) => true
  {
    match e
    case PendingFires(t) =>
      assert TimerOk(t, s.timers[t], s.entries, s.nextTimer);
      assert EntryOk(s.timers[t].id, s.entries[s.timers[t].id], s.timers);
      hide Inv, Finish, TellsAll, DoneWith;
      FiredTimer(s, t);
      FinishTells(s, s.timers[t].id, TimedOut);
    case CleanupFires(t) =>
    case Completes(id, ok) =>
      hide Inv, Finish, TellsAll, DoneWith;
      FinishTells(s, id, Inserted(ok));
  }

  /** Main result: what a repeated request is told: the cached response at once; or it
      waits with the others. */
  lemma RepeatedTells(s: State, id: string)
    requires Inv(s) && id in s.entries
    ensures var v, caller, entry := Handle(s, id), |s.callers|, s.entries[id];
            && v.callers == s.callers + [id] && v.lateNotices == s.lateNotices
            && (if entry.done then
                  entry.response.Some? && v.answers == s.answers + [Answer(caller, entry.response.value)]
                  && v.entries == s.entries
                else
                  v.answers == s.answers
                  && v.entries == s.entries[id := entry.(callbacks := entry.callbacks + [caller])])
  {
    assert EntryOk(id, s.entries[id], s.timers);
  }

  lemma TrackTells(s: State, id: string)
    requires Inv(s) && id !in s.entries
    ensures var v := Track(s, id);
            && v.callers == s.callers + [id] && v.lateNotices == s.lateNotices && v.answers == s.answers
            && id in v.entries && v.entries == s.entries[id := v.entries[id]] && v.order == s.order + [id]
            && !v.entries[id].done && v.entries[id].callbacks == [|s.callers|]
            && v.entries[id].pending.Some? && v.timers == s.timers[v.entries[id].pending.value := PendingTimer(id)]
  {
  }

  /** Main result: what a new request does: it waits, with its time running. When there
      were 64, one entry, and not the new one, makes room, and whoever waits in it is told
      so. */
  lemma NewTells(s: State, id: string)
    requires Inv(s) && |s.order| <= INSERT_REQUEST_MAX_ENTRIES && id !in s.entries
    ensures var v := Handle(s, id);
            && v.callers == s.callers + [id] && v.lateNotices == s.lateNotices
            && id in v.entries && v.entries[id].callbacks == [|s.callers|]
            && (|s.order| < 64 ==> v.answers == s.answers && v.entries == s.entries[id := v.entries[id]])
            && (|s.order| == 64 ==> exists x :: MakesRoom(s, id, x, v))
  {
    hide Inv, Track, Evict, Victim, TellsAll;
    OrderFacts(s);
    TrackKeeps(s, id);
    TrackTells(s, id);
    NewRequestSurvives(s, id);
    var tracked := Track(s, id);
    if |tracked.order| > INSERT_REQUEST_MAX_ENTRIES {
      OrderFacts(tracked);
      var x := Victim(tracked);
      VictimIs(tracked);
      EvictTells(tracked, x);
      assert MakesRoom(s, id, x, Handle(s, id));
    }
  }

  lemma OrderFacts(s: State)
    requires Inv(s)
    ensures OrderOk(s)
  {
  }

  /** This entry made room for the new one. */
  ghost predicate MakesRoom(s: State, id: string, x: string, v: State) {
    && x in s.entries && id in v.entries && v.entries == (s.entries - {x})[id := v.entries[id]]
    && TellsAll(s.answers, if s.entries[x].done then [] else s.entries[x].callbacks, EvictedError, v.answers)
  }
}

/** The tracker as the script keeps it: a map changed in place by event handlers.
    What it sends out (answers, started insertions, late notices) is recorded. */
module ComposeTrackerObject {
  import opened Wrappers
  import opened ComposeTracker

  lemma InvFacts(s: State, id: string)
    requires Inv(s)
    ensures OrderOk(s) && (id in s.entries ==> EntryOk(id, s.entries[id], s.timers))
    ensures forall x :: x in s.order ==> x in s.entries
  {
  }

  class Tracker {
    var entries: map<string, Entry>
    var order: seq<string>
    var timers: map<nat, Timer>
    var nextTimer: nat
    var callers: seq<string>
    var answers: seq<Answer>
    var started: multiset<string>
    var removed: multiset<string>
    var lateNotices: seq<string>

    constructor ()
      ensures View() == Empty()
    {
      entries, order, timers, nextTimer := map[], [], map[], 0;
      callers, answers, started, removed, lateNotices := [], [], multiset{}, multiset{}, [];
    }

    ghost function View(): State
      reads this
    {
      State(entries, order, timers, nextTimer, callers, answers, started, removed, lateNotices)
    }

    method SetTimeout(timer: Timer) returns (t: nat)
      modifies this`timers, this`nextTimer
      ensures t == old(nextTimer) && nextTimer == t + 1 && timers == old(timers)[t := timer]
    {
      t := nextTimer;
      timers := timers[t := timer];
      nextTimer := t + 1;
    }

    method ClearTimeout(t: Option<nat>)
      modifies this`timers
      ensures timers == Disarm(old(timers), t)
    {
      if t.Some? {
        timers := timers - {t.value};
      }
    }

    method CallAll(callbacks: seq<nat>, response: Response)
      modifies this`answers
      ensures answers == old(answers) + AnswerAll(callbacks, response)
    {
      for i := 0 to |callbacks|
        invariant answers == old(answers) + AnswerAll(callbacks[..i], response)
      {
        answers := answers + [Answer(callbacks[i], response)];
        assert AnswerAll(callbacks[..i + 1], response)
               == AnswerAll(callbacks[..i], response) + [Answer(callbacks[i], response)];
      }
      assert callbacks[..|callbacks|] == callbacks;
    }

    method Remove(id: string)
      modifies this`entries, this`order, this`removed
      ensures View() == Delete(old(View()), id)
    {
      entries := entries - {id};
      order := Without(order, id);
      removed := removed + multiset{id};
    }

    /** The oldest completed entry, or else the oldest of all. */
    method ChooseVictim() returns (id: string)
      requires order != [] && forall x :: x in order ==> x in entries
      ensures id == Victim(View())
    {
      var i := 0;
      while i < |order|
        invariant 0 <= i <= |order| && OldestDone(View(), 0) == OldestDone(View(), i)
      {
        if entries[order[i]].done {
          return order[i];
        }
        i := i + 1;
      }
      id := order[0];
    }

    /** Room for a new request: with one entry too many, one entry goes, and whoever
        still waits in it is told. */
    method EvictOne()
      requires order != [] && forall x :: x in order ==> x in entries
      modifies this
      ensures View() == Evict(old(View()), Victim(old(View())))
    {
      hide Disarm, AnswerAll, Without, Victim;
      var id := ChooseVictim();
      var entry := entries[id];
      ClearTimeout(entry.cleanup);
      ClearTimeout(entry.pending);
      if !entry.done {
        CallAll(entry.callbacks, EvictedError);
      }
      Remove(id);
    }

    method Prune()
      requires OrderOk(View()) && |order| <= INSERT_REQUEST_MAX_ENTRIES + 1
      modifies this
      ensures View() == if |old(order)| > INSERT_REQUEST_MAX_ENTRIES then Evict(old(View()), Victim(old(View())))
              else old(View())
    {
      WithoutIs(order, if order == [] then "" else Victim(View()));
      hide Disarm, AnswerAll, Without, Victim, Distinct;
      while |order| > INSERT_REQUEST_MAX_ENTRIES
        invariant if |order| == |old(order)| then View() == old(View())
                  else |old(order)| > INSERT_REQUEST_MAX_ENTRIES && |order| == INSERT_REQUEST_MAX_ENTRIES
                       && View() == Evict(old(View()), Victim(old(View())))
        decreases |order|
      {
        EvictOne();
      }
    }

    method JoinEntry(id: string) returns (later: bool)
      requires id in entries && EntryOk(id, entries[id], timers)
      modifies this
      ensures View() == Rejoin(old(View()), id) && (later <==> !old(entries)[id].done)
    {
      var entry := entries[id];
      var caller := |callers|;
      callers := callers + [id];
      if entry.done {
        answers := answers + [Answer(caller, entry.response.value)];
        return false;
      }
      entries := entries[id := entry.(callbacks := entry.callbacks + [caller])];
      later := true;
    }

    method TrackNew(id: string)
      modifies this
      ensures View() == Track(old(View()), id)
    {
      var timer := SetTimeout(PendingTimer(id));
      entries := entries[id := Entry([|callers|], None, Some(timer), None, false)];
      order := order + [id];
      callers := callers + [id];
      started := started + multiset{id};
    }

    /** A tracked request; the result says whether the answer comes later. */
    method HandleInsertLinks(id: string) returns (later: bool)
      requires Inv(View()) && |order| <= INSERT_REQUEST_MAX_ENTRIES
      modifies this
      ensures View() == Handle(old(View()), id)
      ensures later <==> id !in old(entries) || !old(entries)[id].done
      ensures Inv(View()) && |order| <= INSERT_REQUEST_MAX_ENTRIES
    {
      HandleKeeps(View(), id);
      InvFacts(View(), id);
      if id in entries {
        hide Inv, EntryOk, Rejoin;
        later := JoinEntry(id);
        return;
      }
      TrackKeeps(View(), id);
      InvFacts(Track(View(), id), id);
      hide Inv, OrderOk, Track, Evict, Victim;
      TrackNew(id);
      Prune();
      later := true;
    }

    method NotifyLate(id: string)
      modifies this`lateNotices
      ensures lateNotices == old(lateNotices) + [id]
    {
      lateNotices := lateNotices + [id];
    }

    method FinishTracked(id: string, response: Response)
      modifies this
      ensures View() == Finish(old(View()), id, response)
    {
      hide Disarm, AnswerAll;
      if id in entries {
        Settle(id, response);
      } else if response == Inserted(true) {
        NotifyLate(id);
      }
    }

    method Settle(id: string, response: Response)
      requires id in entries
      modifies this
      ensures View() == Finish(old(View()), id, response)
    {
      hide Disarm, AnswerAll;
      var entry := entries[id];
      ClearTimeout(entry.pending);
      CallAll(entry.callbacks, response);
      ClearTimeout(entry.cleanup);
      var timer := SetTimeout(CleanupTimer(id));
      entries := entries[id := Entry([], Some(timer), None, Some(response), true)];
      if entry.done && response == Inserted(true) {
        NotifyLate(id);
      }
    }

    method OnPendingTimer(t: nat)
      requires Inv(View()) && t in timers && timers[t].PendingTimer?
      modifies this
      ensures View() == Finish(old(View()), old(timers)[t].id, TimedOut) && Inv(View())
    {
      FiredTimer(View(), t);
      FinishKeeps(View(), timers[t].id, TimedOut);
      var id := timers[t].id;
      timers := timers - {t};
      FinishTracked(id, TimedOut);
    }

    method OnCleanupTimer(t: nat)
      requires Inv(View()) && t in timers && timers[t].CleanupTimer?
      modifies this
      ensures Inv(View()) && old(timers)[t].id !in entries && t !in timers && answers == old(answers)
    {
      DeleteKeeps(View(), t);
      var id := timers[t].id;
      timers := timers - {t};
      Remove(id);
    }
  }
}
