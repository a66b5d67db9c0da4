/**
 * The lifecycle-aware event bus (the Kotlin object `ActivityResultEventBus`).
 *
 * The bus keeps an insertion-ordered list of per-activity records. Each record
 * has a foreground flag, at most one listener per event type, and a FIFO queue of
 * deferred actions that run when the activity next comes to the foreground.
 *
 * The first half of this module states every operation as a pure transition on a
 * `BusState` value and proves what the operations promise. The class `EventBus` at
 * the end is the imperative bus: a mutable record list with a drain loop. Each of
 * its methods is proved to perform exactly the corresponding transition.
 */
module ActivityResultEventBus {
  import opened Wrappers
  import opened Platform

  /** A closure queued on a background record, in defunctionalised form. */
  datatype Deferred =
    | RetryRegister(eventType: EventType, listener: ListenerId)            // registerActivityEventListener again
    | RetryDispatch(listener: ListenerId, event: Event, delay: int)        // scheduleEventListener again

  /** One call of a listener: made on the spot, or handed to a timer when the delay is positive. */
  datatype Invocation =
    | Invoked(listener: ListenerId, event: Event)
    | Delayed(listener: ListenerId, event: Event, delay: int)

  /** The per-activity record (`ActivityData`). */
  datatype ActivityData = ActivityData(
    activity: ActivityId,
    isInForeground: bool,
    eventListeners: map<EventType, ListenerId>,
    pending: seq<Deferred>)

  /** The record list and the log of listener invocations made so far. */
  datatype BusState = BusState(data: seq<ActivityData>, log: seq<Invocation>)

  /** A fresh record: background, no listeners, nothing queued. */
  function NewRecord(a: ActivityId): ActivityData
  {
    ActivityData(a, false, map[], [])
  }

  /** The bus invariant: no two records belong to the same activity. */
  predicate Unique(data: seq<ActivityData>)
  {
    forall i, j :: 0 <= i < j < |data| ==> data[i].activity != data[j].activity
  }

  // ---------------------------------------------------------------------------
  // Looking records up
  // ---------------------------------------------------------------------------

  /** `data.find { it.activity == activity }`, as an index: the first record of the activity. */
  function Find(data: seq<ActivityData>, a: ActivityId): (r: Option<nat>)
    ensures r.Some? ==> r.value < |data| && data[r.value].activity == a
    ensures r.Some? ==> forall k :: 0 <= k < r.value ==> data[k].activity != a
    ensures r.None? ==> forall k :: 0 <= k < |data| ==> data[k].activity != a
  {
    if data == [] then None
    else if data[0].activity == a then Some(0)
    else match Find(data[1..], a)
      case None => None
      case Some(k) => Some(k + 1)
  }

  /** The record the bus holds for an activity, or the fresh record it would create. */
  function Lookup(data: seq<ActivityData>, a: ActivityId): ActivityData
  {
    match Find(data, a)
    case Some(k) => data[k]
    case None => NewRecord(a)
  }

  /** `findOrCreateActivityData`: the list afterwards and the index of the activity's record. */
  function FindOrCreate(data: seq<ActivityData>, a: ActivityId): (r: (seq<ActivityData>, nat))
    ensures r.1 < |r.0| && r.0[r.1].activity == a
    ensures (exists k :: 0 <= k < |data| && data[k].activity == a) ==> r.0 == data
    ensures (forall k :: 0 <= k < |data| ==> data[k].activity != a) ==>
              r.0 == data + [ActivityData(a, false, map[], [])] && r.1 == |data|
    ensures Unique(data) ==> Unique(r.0)
  {
    match Find(data, a)
    case Some(k) => (data, k)
    case None => (data + [NewRecord(a)], |data|)
  }

  lemma LookupAt(data: seq<ActivityData>, k: nat)
    requires Unique(data) && k < |data|
    ensures Find(data, data[k].activity) == Some(k)
    ensures Lookup(data, data[k].activity) == data[k]
  {
    var r := Find(data, data[k].activity);
    assert r.Some?;
    assert !(r.value < k) && !(k < r.value);
  }

  lemma LookupAbsent(data: seq<ActivityData>, a: ActivityId)
    requires forall k :: 0 <= k < |data| ==> data[k].activity != a
    ensures Lookup(data, a) == NewRecord(a)
  {
  }

  /** Replacing a record by one of the same activity changes the view of that activity only. */
  lemma LookupUpdate(data: seq<ActivityData>, i: nat, d: ActivityData)
    requires Unique(data) && i < |data| && d.activity == data[i].activity
    ensures Unique(data[i := d])
    ensures forall x :: Lookup(data[i := d], x) == if x == d.activity then d else Lookup(data, x)
  {
    var data' := data[i := d];
    assert Unique(data') by {
      forall p, q | 0 <= p < q < |data'| ensures data'[p].activity != data'[q].activity {
        assert data'[p].activity == data[p].activity && data'[q].activity == data[q].activity;
      }
    }
    forall x ensures Lookup(data', x) == if x == d.activity then d else Lookup(data, x) {
      if x == d.activity {
        LookupAt(data', i);
      } else if k :| 0 <= k < |data| && data[k].activity == x {
        LookupAt(data, k);
        LookupAt(data', k);
      } else {
        LookupAbsent(data, x);
        LookupAbsent(data', x);
      }
    }
  }

  /** Appending a record for an activity the list does not hold changes the view of that activity only. */
  lemma LookupAppend(data: seq<ActivityData>, d: ActivityData)
    requires Unique(data) && forall k :: 0 <= k < |data| ==> data[k].activity != d.activity
    ensures Unique(data + [d])
    ensures forall x :: Lookup(data + [d], x) == if x == d.activity then d else Lookup(data, x)
  {
    var data' := data + [d];
    forall x ensures Lookup(data', x) == if x == d.activity then d else Lookup(data, x) {
      if x == d.activity {
        LookupAt(data', |data|);
      } else if k :| 0 <= k < |data| && data[k].activity == x {
        LookupAt(data, k);
        LookupAt(data', k);
      } else {
        LookupAbsent(data, x);
        LookupAbsent(data', x);
      }
    }
  }

  /** Removing the record at i forgets that activity and keeps every other record's view. */
  lemma LookupRemove(data: seq<ActivityData>, i: nat)
    requires Unique(data) && i < |data|
    ensures Unique(data[..i] + data[i + 1..])
    ensures Lookup(data[..i] + data[i + 1..], data[i].activity) == NewRecord(data[i].activity)
    ensures forall x :: x != data[i].activity ==> Lookup(data[..i] + data[i + 1..], x) == Lookup(data, x)
  {
    var data' := data[..i] + data[i + 1..];
    assert forall k :: 0 <= k < |data'| ==> data'[k] == if k < i then data[k] else data[k + 1];
    assert Unique(data') by {
      forall p, q | 0 <= p < q < |data'| ensures data'[p].activity != data'[q].activity {
        var p' := if p < i then p else p + 1;
        var q' := if q < i then q else q + 1;
        assert data'[p] == data[p'] && data'[q] == data[q'] && p' < q';
      }
    }
    LookupAbsent(data', data[i].activity);
    forall x | x != data[i].activity ensures Lookup(data', x) == Lookup(data, x) {
      if k :| 0 <= k < |data| && data[k].activity == x {
        LookupAt(data, k);
        LookupAt(data', if k < i then k else k - 1);
      } else {
        LookupAbsent(data, x);
        LookupAbsent(data', x);
      }
    }
  }

  /** findOrCreateActivityData never changes what the bus holds for any activity: a created record is the fresh one. */
  lemma FindOrCreateKeepsView(data: seq<ActivityData>, a: ActivityId)
    requires Unique(data)
    ensures var (data', i) := FindOrCreate(data, a);
      data'[i] == Lookup(data, a) &&
      (forall x :: Lookup(data', x) == Lookup(data, x)) &&
      |data'| >= |data| && data'[..|data|] == data
  {
    match Find(data, a)
    case Some(k) =>
    case None =>
      LookupAppend(data, NewRecord(a));
  }

  // ---------------------------------------------------------------------------
  // The operations as transitions
  // ---------------------------------------------------------------------------

  /** `registerActivityEventListener` */
  function AfterRegister(b: BusState, a: ActivityId, t: EventType, l: ListenerId): (r: BusState)
    ensures r.log == b.log
    ensures |r.data| == (if Find(b.data, a).Some? then |b.data| else |b.data| + 1)
  {
    var p := FindOrCreate(b.data, a);
    var data := p.0;
    var i := p.1;
    var d := data[i];
    if !d.isInForeground
    then BusState(data[i := d.(pending := d.pending + [RetryRegister(t, l)])], b.log)
    else BusState(data[i := d.(eventListeners := d.eventListeners[t := l])], b.log)
  }

  /** `invokeEventListener`: a positive delay only schedules the call. */
  function Invoke(l: ListenerId, e: Event, delay: int): (r: Invocation)
    ensures r.listener == l && r.event == e
    ensures r.Invoked? <==> delay <= 0
    ensures r.Delayed? ==> r.delay == delay
  {
    if delay > 0 then Delayed(l, e, delay) else Invoked(l, e)
  }

  /** `scheduleEventListener` on the record at index i. */
  function AfterSchedule(b: BusState, i: nat, l: ListenerId, e: Event, delay: int): (r: BusState)
    requires i < |b.data|
    ensures |r.data| == |b.data|
    ensures forall j :: 0 <= j < |b.data| && j != i ==> r.data[j] == b.data[j]
    ensures |r.log| == |b.log| + (if b.data[i].isInForeground then 1 else 0)
  {
    var d := b.data[i];
    if !d.isInForeground
    then BusState(b.data[i := d.(pending := d.pending + [RetryDispatch(l, e, delay)])], b.log)
    else BusState(b.data[i := d.(eventListeners := d.eventListeners - {e.eventType})],
                  b.log + [Invoke(l, e, delay)])
  }

  /** The loop of `post(event, delay)` from the record at index k on. */
  function PostFrom(b: BusState, e: Event, delay: int, k: nat): (r: BusState)
    requires k <= |b.data|
    ensures |r.data| == |b.data|
    ensures |b.log| <= |r.log| <= |b.log| + (|b.data| - k)
    decreases |b.data| - k
  {
    if k == |b.data| then b
    else
      var d := b.data[k];
      var next := if e.eventType in d.eventListeners
                  then AfterSchedule(b, k, d.eventListeners[e.eventType], e, delay)
                  else b;
      PostFrom(next, e, delay, k + 1)
  }

  /** `post(event, delay)`; `post(event)` is this with delay 0. */
  function AfterPost(b: BusState, e: Event, delay: int): (r: BusState)
    ensures |r.data| == |b.data|
    ensures |b.log| <= |r.log| <= |b.log| + |b.data|
  {
    PostFrom(b, e, delay, 0)
  }

  /** Running one queued action popped from the record at index i. */
  function Run(b: BusState, i: nat, action: Deferred): BusState
    requires i < |b.data|
  {
    match action
    case RetryRegister(t, l) => AfterRegister(b, b.data[i].activity, t, l)
    case RetryDispatch(l, e, delay) => AfterSchedule(b, i, l, e, delay)
  }

  /** What a queued action does to the listener map of a foreground record. */
  function Step(m: map<EventType, ListenerId>, action: Deferred): map<EventType, ListenerId>
  {
    match action
    case RetryRegister(t, l) => m[t := l]
    case RetryDispatch(_, e, _) => m - {e.eventType}
  }

  /** The listener map after the actions of a queue have run, in order, on a foreground record. */
  function Replay(m: map<EventType, ListenerId>, q: seq<Deferred>): map<EventType, ListenerId>
    decreases |q|
  {
    if q == [] then m else Replay(Step(m, q[0]), q[1..])
  }

  /** The invocations made by the dispatches of a queue when it is drained. */
  function Fired(q: seq<Deferred>): seq<Invocation>
  {
    if q == [] then []
    else
      (match q[0]
       case RetryRegister(_, _) => []
       case RetryDispatch(l, e, delay) => [Invoke(l, e, delay)])
      + Fired(q[1..])
  }

  /** On a foreground record, a queued action stays within that record: it never queues again. */
  lemma RunInPlace(b: BusState, i: nat, action: Deferred)
    requires Unique(b.data) && i < |b.data| && b.data[i].isInForeground
    ensures Run(b, i, action) ==
      BusState(b.data[i := b.data[i].(eventListeners := Step(b.data[i].eventListeners, action))],
               b.log + Fired([action]))
  {
    assert [action][1..] == [];
    if action.RetryRegister? {
      LookupAt(b.data, i);
    }
  }

  /** The drain loop of `onActivityPostResumed` on the record at index i: pop the front action and
      run it, until the queue is empty. On a foreground record running an action is one `Step`
      of the listener map plus the invocations it fires (`RunInPlace`); the drain of
      `EventBus.OnActivityPostResumed` re-invokes the real operations and is proved to agree. */
  function Drain(b: BusState, i: nat): (r: BusState)
    requires i < |b.data|
    ensures |r.data| == |b.data| && r.data[i].pending == []
    ensures r.data[i].activity == b.data[i].activity && r.data[i].isInForeground == b.data[i].isInForeground
    decreases |b.data[i].pending|
  {
    var d := b.data[i];
    if d.pending == [] then b
    else
      var nd := d.(pending := d.pending[1..], eventListeners := Step(d.eventListeners, d.pending[0]));
      Drain(BusState(b.data[i := nd], b.log + Fired([d.pending[0]])), i)
  }

  /** `onActivityPostResumed` */
  function AfterResume(b: BusState, a: ActivityId): (r: BusState)
    ensures |r.data| == (if Find(b.data, a).Some? then |b.data| else |b.data| + 1)
    ensures exists k :: 0 <= k < |r.data| && r.data[k].activity == a && r.data[k].isInForeground && r.data[k].pending == []
  {
    var p := FindOrCreate(b.data, a);
    var i := p.1;
    var r := Drain(BusState(p.0[i := p.0[i].(isInForeground := true)], b.log), i);
    assert r.data[i].activity == a && r.data[i].isInForeground && r.data[i].pending == [];
    r
  }

  /** `onActivityPaused` */
  function AfterPause(b: BusState, a: ActivityId): (r: BusState)
    ensures r.log == b.log && |r.data| == (if Find(b.data, a).Some? then |b.data| else |b.data| + 1)
    ensures exists k :: 0 <= k < |r.data| && r.data[k].activity == a && !r.data[k].isInForeground
  {
    var p := FindOrCreate(b.data, a);
    var i := p.1;
    var r := BusState(p.0[i := p.0[i].(isInForeground := false)], b.log);
    assert r.data[i].activity == a && !r.data[i].isInForeground;
    r
  }

  /** `onActivityDestroyed` */
  function AfterDestroy(b: BusState, a: ActivityId): (r: BusState)
    ensures r.log == b.log
    ensures |r.data| == (if Find(b.data, a).Some? then |b.data| - 1 else |b.data|)
  {
    match Find(b.data, a)
    case None => b
    case Some(i) => BusState(b.data[..i] + b.data[i + 1..], b.log)
  }

  // ---------------------------------------------------------------------------
  // Registration
  // ---------------------------------------------------------------------------

  /** Registering while the activity is not in the foreground (or unknown) queues one retry and
      installs nothing; no other activity is affected and the record order is kept. */
  lemma RegisterWhileBackground(b: BusState, a: ActivityId, t: EventType, l: ListenerId)
    requires Unique(b.data) && !Lookup(b.data, a).isInForeground
    ensures var r := AfterRegister(b, a, t, l); var d := Lookup(b.data, a);
      Unique(r.data) && r.log == b.log &&
      Lookup(r.data, a) == d.(pending := d.pending + [RetryRegister(t, l)]) &&
      Lookup(r.data, a).eventListeners == d.eventListeners &&
      (forall x :: x != a ==> Lookup(r.data, x) == Lookup(b.data, x)) &&
      |r.data| == (if Find(b.data, a).Some? then |b.data| else |b.data| + 1) &&
      (forall k :: 0 <= k < |b.data| ==> r.data[k].activity == b.data[k].activity)
  {
    var (data, i) := FindOrCreate(b.data, a);
    FindOrCreateKeepsView(b.data, a);
    var d := data[i];
    LookupUpdate(data, i, d.(pending := d.pending + [RetryRegister(t, l)]));
  }

  /** Registering while the activity is in the foreground sets or replaces its single listener
      for the type and changes nothing else. */
  lemma RegisterWhileForeground(b: BusState, a: ActivityId, t: EventType, l: ListenerId)
    requires Unique(b.data) && Lookup(b.data, a).isInForeground
    ensures var r := AfterRegister(b, a, t, l); var d := Lookup(b.data, a);
      Unique(r.data) && r.log == b.log &&
      Lookup(r.data, a) == d.(eventListeners := d.eventListeners[t := l]) &&
      Lookup(r.data, a).eventListeners[t] == l &&
      (forall x :: x != a ==> Lookup(r.data, x) == Lookup(b.data, x)) &&
      |r.data| == |b.data| &&
      (forall k :: 0 <= k < |b.data| ==> r.data[k].activity == b.data[k].activity)
  {
    var (data, i) := FindOrCreate(b.data, a);
    FindOrCreateKeepsView(b.data, a);
    var d := data[i];
    assert data == b.data;
    LookupUpdate(data, i, d.(eventListeners := d.eventListeners[t := l]));
    var r := AfterRegister(b, a, t, l);
    assert r.data == b.data[i := d.(eventListeners := d.eventListeners[t := l])];
    LookupAt(b.data, i);
  }

  // ---------------------------------------------------------------------------
  // Posting
  // ---------------------------------------------------------------------------

  /** What `post` does to one record, independently of the others: a foreground record loses
      its listener for the event's type, a background record queues the dispatch and keeps it. */
  function PostRecord(d: ActivityData, e: Event, delay: int): ActivityData
  {
    if e.eventType !in d.eventListeners then d
    else if d.isInForeground then d.(eventListeners := d.eventListeners - {e.eventType})
    else d.(pending := d.pending + [RetryDispatch(d.eventListeners[e.eventType], e, delay)])
  }

  /** The invocations `post` makes: one per foreground record with a listener for the type, in list order. */
  function Deliveries(data: seq<ActivityData>, e: Event, delay: int): seq<Invocation>
  {
    if data == [] then []
    else
      (if data[0].isInForeground && e.eventType in data[0].eventListeners
       then [Invoke(data[0].eventListeners[e.eventType], e, delay)] else [])
      + Deliveries(data[1..], e, delay)
  }

  /** The post loop from record k on leaves the records before k alone and applies the
      record-wise rule to every record from k on. */
  lemma {:induction false} PostFromRecords(b: BusState, e: Event, delay: int, k: nat)
    requires k <= |b.data|
    ensures var r := PostFrom(b, e, delay, k);
      (forall j :: 0 <= j < k ==> r.data[j] == b.data[j]) &&
      (forall j :: k <= j < |b.data| ==> r.data[j] == PostRecord(b.data[j], e, delay))
    decreases |b.data| - k
  {
    if k < |b.data| {
      var d := b.data[k];
      var next := if e.eventType in d.eventListeners
                  then AfterSchedule(b, k, d.eventListeners[e.eventType], e, delay)
                  else b;
      assert next.data == b.data[k := PostRecord(d, e, delay)];
      PostFromRecords(next, e, delay, k + 1);
    }
  }

  /** The post loop from record k on logs the deliveries of the records from k on, in list order. */
  lemma {:induction false} PostFromLog(b: BusState, e: Event, delay: int, k: nat)
    requires k <= |b.data|
    ensures PostFrom(b, e, delay, k).log == b.log + Deliveries(b.data[k..], e, delay)
    decreases |b.data| - k
  {
    if k == |b.data| {
      assert b.data[k..] == [];
    } else {
      var d := b.data[k];
      var next := if e.eventType in d.eventListeners
                  then AfterSchedule(b, k, d.eventListeners[e.eventType], e, delay)
                  else b;
      PostFromLog(next, e, delay, k + 1);
      assert next.data[k + 1..] == b.data[k + 1..];
      assert b.data[k..][0] == d && b.data[k..][1..] == b.data[k + 1..];
    }
  }

  lemma PostFromEffect(b: BusState, e: Event, delay: int, k: nat)
    requires k <= |b.data|
    ensures var r := PostFrom(b, e, delay, k);
      |r.data| == |b.data| &&
      (forall j :: 0 <= j < k ==> r.data[j] == b.data[j]) &&
      (forall j :: k <= j < |b.data| ==> r.data[j] == PostRecord(b.data[j], e, delay)) &&
      r.log == b.log + Deliveries(b.data[k..], e, delay)
  {
    PostFromRecords(b, e, delay, k);
    PostFromLog(b, e, delay, k);
  }

  /** `post` treats every record on its own (the list and its order are kept) and
      logs exactly the deliveries to foreground records, in list order. */
  lemma PostEffect(b: BusState, e: Event, delay: int)
    ensures var r := AfterPost(b, e, delay);
      |r.data| == |b.data| &&
      (forall j :: 0 <= j < |b.data| ==> r.data[j] == PostRecord(b.data[j], e, delay)) &&
      r.log == b.log + Deliveries(b.data, e, delay)
  {
    PostFromEffect(b, e, delay, 0);
    assert b.data[0..] == b.data;
  }

  lemma {:induction false} DeliveriesNone(data: seq<ActivityData>, e: Event, delay: int)
    requires forall k :: 0 <= k < |data| ==> e.eventType !in data[k].eventListeners
    ensures Deliveries(data, e, delay) == []
  {
    if data != [] {
      DeliveriesNone(data[1..], e, delay);
    }
  }

  /** With no listener for the event's type anywhere, `post` has no effect at all. */
  lemma PostWithoutListeners(b: BusState, e: Event, delay: int)
    requires forall k :: 0 <= k < |b.data| ==> e.eventType !in b.data[k].eventListeners
    ensures AfterPost(b, e, delay) == b
  {
    PostEffect(b, e, delay);
    DeliveriesNone(b.data, e, delay);
    var r := AfterPost(b, e, delay);
    assert r.data == b.data;
  }

  /** With delay 0 every delivery is a synchronous call; with a positive delay every
      delivery is only handed to a timer. */
  lemma {:induction false} DeliveriesTiming(data: seq<ActivityData>, e: Event, delay: int)
    ensures forall k :: 0 <= k < |Deliveries(data, e, delay)| ==>
      Deliveries(data, e, delay)[k].event == e &&
      (Deliveries(data, e, delay)[k].Invoked? <==> delay <= 0) &&
      (Deliveries(data, e, delay)[k].Delayed? ==> Deliveries(data, e, delay)[k].delay == delay)
  {
    if data != [] {
      DeliveriesTiming(data[1..], e, delay);
    }
  }

  /** One-shot delivery: once every record is in the foreground, a post consumes each listener for
      the type, so a second post of that type without re-registration delivers nothing and changes nothing. */
  lemma SecondPostDeliversNothing(b: BusState, e: Event, delay: int, e': Event, delay': int)
    requires forall k :: 0 <= k < |b.data| ==> b.data[k].isInForeground
    requires e'.eventType == e.eventType
    ensures forall k :: 0 <= k < |AfterPost(b, e, delay).data| ==>
      e.eventType !in AfterPost(b, e, delay).data[k].eventListeners
    ensures AfterPost(AfterPost(b, e, delay), e', delay') == AfterPost(b, e, delay)
  {
    PostEffect(b, e, delay);
    PostWithoutListeners(AfterPost(b, e, delay), e', delay');
  }

  lemma {:induction false} DeliveriesNoneInForeground(data: seq<ActivityData>, e: Event, delay: int)
    requires forall k :: 0 <= k < |data| && data[k].isInForeground ==> e.eventType !in data[k].eventListeners
    ensures Deliveries(data, e, delay) == []
  {
    if data != [] {
      DeliveriesNoneInForeground(data[1..], e, delay);
    }
  }

  /** One-shot delivery on any bus: a second post of the same type invokes no listener, and
      changes no foreground record; background records only queue one more dispatch. */
  lemma PostTwiceDeliversOnce(b: BusState, e: Event, delay: int, e': Event, delay': int)
    requires e'.eventType == e.eventType
    ensures AfterPost(AfterPost(b, e, delay), e', delay').log == AfterPost(b, e, delay).log
    ensures forall j :: 0 <= j < |b.data| && b.data[j].isInForeground ==>
      AfterPost(AfterPost(b, e, delay), e', delay').data[j] == AfterPost(b, e, delay).data[j]
  {
    var once := AfterPost(b, e, delay);
    PostEffect(b, e, delay);
    PostEffect(once, e', delay');
    DeliveriesNoneInForeground(once.data, e', delay');
  }

  // ---------------------------------------------------------------------------
  // Coming to the foreground, pausing, destruction
  // ---------------------------------------------------------------------------

  lemma {:induction false} FiredAppend(q1: seq<Deferred>, q2: seq<Deferred>)
    ensures Fired(q1 + q2) == Fired(q1) + Fired(q2)
  {
    if q1 == [] {
      assert q1 + q2 == q2;
    } else {
      assert (q1 + q2)[0] == q1[0] && (q1 + q2)[1..] == q1[1..] + q2;
      FiredAppend(q1[1..], q2);
    }
  }

  /** Each queued dispatch fires exactly once, in queue order, and a queued registration fires nothing. */
  lemma FiredEach(q: seq<Deferred>, a: Deferred)
    ensures Fired(q + [a]) == Fired(q) + (if a.RetryDispatch? then [Invoke(a.listener, a.event, a.delay)] else [])
  {
    FiredAppend(q, [a]);
    assert [a][1..] == [];
  }

  /** The drain empties the record's queue; the queued actions run in FIFO order, each exactly once. */
  lemma {:induction false} DrainEffect(b: BusState, i: nat)
    requires i < |b.data|
    ensures var d := b.data[i];
      Drain(b, i) == BusState(
        b.data[i := d.(pending := [], eventListeners := Replay(d.eventListeners, d.pending))],
        b.log + Fired(d.pending))
    decreases |b.data[i].pending|
  {
    var d := b.data[i];
    if d.pending == [] {
      assert b.data[i := d.(pending := [], eventListeners := Replay(d.eventListeners, d.pending))] == b.data;
    } else {
      var nd := d.(pending := d.pending[1..], eventListeners := Step(d.eventListeners, d.pending[0]));
      var next := BusState(b.data[i := nd], b.log + Fired([d.pending[0]]));
      DrainEffect(next, i);
      var final := d.(pending := [], eventListeners := Replay(d.eventListeners, d.pending));
      assert next.data[i := nd.(pending := [], eventListeners := Replay(nd.eventListeners, nd.pending))]
             == b.data[i := final] by {
        assert final == nd.(pending := [], eventListeners := Replay(nd.eventListeners, nd.pending));
      }
      assert next.log + Fired(nd.pending) == b.log + Fired(d.pending) by {
        assert d.pending == [d.pending[0]] + d.pending[1..];
        FiredAppend([d.pending[0]], d.pending[1..]);
      }
    }
  }

  /** `onActivityPostResumed` leaves the activity in the foreground with an empty queue: its queued
      registrations are installed and its queued dispatches fire, in FIFO order, each exactly once.
      No other activity is touched and the record order is kept. */
  lemma ResumeEffect(b: BusState, a: ActivityId)
    requires Unique(b.data)
    ensures var r := AfterResume(b, a); var d := Lookup(b.data, a);
      Unique(r.data) &&
      Lookup(r.data, a) == d.(isInForeground := true, pending := [],
                              eventListeners := Replay(d.eventListeners, d.pending)) &&
      r.log == b.log + Fired(d.pending) &&
      (forall x :: x != a ==> Lookup(r.data, x) == Lookup(b.data, x)) &&
      |r.data| == (if Find(b.data, a).Some? then |b.data| else |b.data| + 1) &&
      (forall k :: 0 <= k < |b.data| ==> r.data[k].activity == b.data[k].activity)
  {
    var (data, i) := FindOrCreate(b.data, a);
    FindOrCreateKeepsView(b.data, a);
    var woken := BusState(data[i := data[i].(isInForeground := true)], b.log);
    LookupUpdate(data, i, woken.data[i]);
    DrainEffect(woken, i);
    var d := woken.data[i];
    LookupUpdate(woken.data, i, d.(pending := [], eventListeners := Replay(d.eventListeners, d.pending)));
    assert forall k :: 0 <= k < |b.data| ==> data[k] == b.data[k];
  }

  lemma {:induction false} ReplaySnoc(m: map<EventType, ListenerId>, q: seq<Deferred>, x: Deferred)
    ensures Replay(m, q + [x]) == Step(Replay(m, q), x)
    decreases |q|
  {
    if q == [] {
      assert q + [x] == [x] && [x][1..] == [];
    } else {
      assert (q + [x])[0] == q[0] && (q + [x])[1..] == q[1..] + [x];
      ReplaySnoc(Step(m, q[0]), q[1..], x);
    }
  }

  /** A registration made while the activity is in the background (or unknown) is installed by the
      next resume, after the actions queued before it, on any bus. */
  lemma RegisterThenResume(b: BusState, a: ActivityId, t: EventType, l: ListenerId)
    requires Unique(b.data) && !Lookup(b.data, a).isInForeground
    ensures var r := AfterResume(AfterRegister(b, a, t, l), a); var d := Lookup(b.data, a);
      Lookup(r.data, a).eventListeners == Replay(d.eventListeners, d.pending)[t := l] &&
      Lookup(r.data, a).eventListeners[t] == l &&
      r.log == b.log + Fired(d.pending)
  {
    var d := Lookup(b.data, a);
    RegisterWhileBackground(b, a, t, l);
    ResumeEffect(AfterRegister(b, a, t, l), a);
    ReplaySnoc(d.eventListeners, d.pending, RetryRegister(t, l));
    FiredEach(d.pending, RetryRegister(t, l));
  }

  /** `onActivityPaused` only clears the flag: listeners and the queue stay as they were. */
  lemma PauseEffect(b: BusState, a: ActivityId)
    requires Unique(b.data)
    ensures var r := AfterPause(b, a); var d := Lookup(b.data, a);
      Unique(r.data) && r.log == b.log &&
      Lookup(r.data, a) == d.(isInForeground := false) &&
      (forall x :: x != a ==> Lookup(r.data, x) == Lookup(b.data, x)) &&
      |r.data| == (if Find(b.data, a).Some? then |b.data| else |b.data| + 1) &&
      (forall k :: 0 <= k < |b.data| ==> r.data[k].activity == b.data[k].activity)
  {
    var (data, i) := FindOrCreate(b.data, a);
    FindOrCreateKeepsView(b.data, a);
    LookupUpdate(data, i, data[i].(isInForeground := false));
    assert forall k :: 0 <= k < |b.data| ==> data[k] == b.data[k];
  }

  /** The records of the list that do not belong to activity a, in their order. */
  function Without(data: seq<ActivityData>, a: ActivityId): seq<ActivityData>
  {
    if data == [] then []
    else (if data[0].activity == a then [] else [data[0]]) + Without(data[1..], a)
  }

  lemma {:induction false} WithoutAbsent(x: seq<ActivityData>, a: ActivityId)
    requires forall k :: 0 <= k < |x| ==> x[k].activity != a
    ensures Without(x, a) == x
  {
    if x != [] {
      WithoutAbsent(x[1..], a);
    }
  }

  /** Filtering out the activity of a record that no other record shares drops just that record. */
  lemma {:induction false} WithoutSplit(s: seq<ActivityData>, left: seq<ActivityData>, d: ActivityData, right: seq<ActivityData>)
    requires s == left + [d] + right
    requires forall k :: 0 <= k < |left| ==> left[k].activity != d.activity
    requires forall k :: 0 <= k < |right| ==> right[k].activity != d.activity
    ensures Without(s, d.activity) == left + right
  {
    if left == [] {
      assert s[0] == d && s[1..] == right;
      WithoutAbsent(right, d.activity);
    } else {
      assert s[0] == left[0] && s[1..] == left[1..] + [d] + right;
      WithoutSplit(s[1..], left[1..], d, right);
      assert left + right == [left[0]] + (left[1..] + right);
    }
  }

  /** In a list without duplicates, no record but the one at i belongs to its activity. */
  lemma UniqueApart(data: seq<ActivityData>, i: nat, left: seq<ActivityData>, right: seq<ActivityData>)
    requires Unique(data) && i < |data| && left == data[..i] && right == data[i + 1..]
    ensures data == left + [data[i]] + right
    ensures forall k :: 0 <= k < |left| ==> left[k].activity != data[i].activity
    ensures forall k :: 0 <= k < |right| ==> right[k].activity != data[i].activity
  {
    forall k | 0 <= k < |left| ensures left[k].activity != data[i].activity {
      assert left[k] == data[k];
    }
    forall k | 0 <= k < |right| ensures right[k].activity != data[i].activity {
      assert right[k] == data[i + 1 + k];
    }
  }

  /** Removing the one record of an activity from a list without duplicates is filtering it out. */
  lemma WithoutRemove(data: seq<ActivityData>, i: nat)
    requires Unique(data) && i < |data|
    ensures Without(data, data[i].activity) == data[..i] + data[i + 1..]
  {
    var left, right := data[..i], data[i + 1..];
    UniqueApart(data, i, left, right);
    WithoutSplit(data, left, data[i], right);
  }

  /** `onActivityDestroyed` evicts the activity's record, if there is one, and keeps the other
      records in their order; afterwards the bus holds nothing for the activity. */
  lemma DestroyEffect(b: BusState, a: ActivityId)
    requires Unique(b.data)
    ensures var r := AfterDestroy(b, a);
      Unique(r.data) && r.log == b.log &&
      r.data == Without(b.data, a) &&
      (forall k :: 0 <= k < |r.data| ==> r.data[k].activity != a) &&
      Lookup(r.data, a) == NewRecord(a) &&
      (forall x :: x != a ==> Lookup(r.data, x) == Lookup(b.data, x))
  {
    match Find(b.data, a)
    case None =>
      WithoutAbsent(b.data, a);
      LookupAbsent(b.data, a);
    case Some(i) =>
      LookupRemove(b.data, i);
      WithoutRemove(b.data, i);
      var r := AfterDestroy(b, a);
      forall k | 0 <= k < |r.data| ensures r.data[k].activity != a {
        assert r.data[k] == if k < i then b.data[k] else b.data[k + 1];
      }
  }

  /** Destroying twice is the same as destroying once. */
  lemma DestroyIdempotent(b: BusState, a: ActivityId)
    requires Unique(b.data)
    ensures AfterDestroy(AfterDestroy(b, a), a) == AfterDestroy(b, a)
  {
    DestroyEffect(b, a);
  }

  /** Destruction is not terminal: registering again for a destroyed activity appends a fresh
      background record, holding the queued retry, at the end of the list. */
  lemma RegisterAfterDestroy(b: BusState, a: ActivityId, t: EventType, l: ListenerId)
    requires Unique(b.data)
    ensures AfterRegister(AfterDestroy(b, a), a, t, l).data ==
      Without(b.data, a) + [ActivityData(a, false, map[], [RetryRegister(t, l)])]
  {
    DestroyEffect(b, a);
    var r := AfterDestroy(b, a);
    var created := ActivityData(a, false, map[], []);
    var p := FindOrCreate(r.data, a);
    assert p.0 == r.data + [created] && p.1 == |r.data|;
    assert p.0[p.1] == created && created.pending + [RetryRegister(t, l)] == [RetryRegister(t, l)];
    assert (r.data + [created])[|r.data| := created.(pending := [RetryRegister(t, l)])]
        == r.data + [created.(pending := [RetryRegister(t, l)])];
  }

  // ---------------------------------------------------------------------------
  // Scenarios
  // ---------------------------------------------------------------------------

  /** A registration made before the activity is resumed is installed by the resume; the next
      post of the type is delivered to it synchronously, once, and a second post delivers nothing. */
  lemma ScenarioRegisterBeforeResume(a: ActivityId, t: EventType, l: ListenerId, e1: Event, e2: Event)
    requires e1.eventType == t && e2.eventType == t
    ensures var s := AfterPost(AfterResume(AfterRegister(BusState([], []), a, t, l), a), e1, 0);
      s.log == [Invoked(l, e1)] && AfterPost(s, e2, 0) == s
  {
    var s1 := AfterRegister(BusState([], []), a, t, l);
    var p := FindOrCreate([], a);
    assert p.1 == 0 && p.0 == [NewRecord(a)];
    assert p.0[0].pending + [RetryRegister(t, l)] == [RetryRegister(t, l)];
    assert s1.data == [NewRecord(a)][0 := NewRecord(a).(pending := [RetryRegister(t, l)])];
    assert s1.data == [ActivityData(a, false, map[], [RetryRegister(t, l)])];
    ResumeEffect(s1, a);
    var s2 := AfterResume(s1, a);
    LookupAt(s1.data, 0);
    assert Replay(map[], [RetryRegister(t, l)]) == map[t := l];
    assert Fired([RetryRegister(t, l)]) == [];
    LookupAt(s2.data, 0);
    assert s2.data == [ActivityData(a, true, map[t := l], [])];
    PostEffect(s2, e1, 0);
    var s3 := AfterPost(s2, e1, 0);
    assert Deliveries(s2.data, e1, 0) == [Invoked(l, e1)] + Deliveries([], e1, 0);
    SecondPostDeliversNothing(s2, e1, 0, e2, 0);
  }

  /** Two foreground activities holding a listener for the same type both receive one post, in list order. */
  lemma ScenarioFanOut(a: ActivityId, a': ActivityId, t: EventType, l: ListenerId, l': ListenerId, e: Event)
    requires a != a' && e.eventType == t
    ensures var s := BusState([ActivityData(a, true, map[t := l], []), ActivityData(a', true, map[t := l'], [])], []);
      AfterPost(s, e, 0).log == [Invoked(l, e), Invoked(l', e)]
  {
    var s := BusState([ActivityData(a, true, map[t := l], []), ActivityData(a', true, map[t := l'], [])], []);
    PostEffect(s, e, 0);
    assert s.data[1..][1..] == [];
    assert Deliveries(s.data, e, 0) == [Invoked(l, e)] + Deliveries(s.data[1..], e, 0);
  }

  /** `post` keeps the listener of a background activity, so two posts while it is in the background
      queue two dispatches of the same listener, and resuming it invokes that listener twice. */
  lemma ScenarioTwoPostsWhileBackground(a: ActivityId, t: EventType, l: ListenerId, e1: Event, e2: Event)
    requires e1.eventType == t && e2.eventType == t
    ensures var s := BusState([ActivityData(a, false, map[t := l], [])], []);
      var s' := AfterPost(AfterPost(s, e1, 0), e2, 0);
      s'.log == [] &&
      s'.data == [ActivityData(a, false, map[t := l], [RetryDispatch(l, e1, 0), RetryDispatch(l, e2, 0)])] &&
      AfterResume(s', a).log == [Invoked(l, e1), Invoked(l, e2)]
  {
    var s := BusState([ActivityData(a, false, map[t := l], [])], []);
    PostEffect(s, e1, 0);
    var s1 := AfterPost(s, e1, 0);
    assert Deliveries(s.data, e1, 0) == [] + Deliveries([], e1, 0);
    assert s1.data[0] == PostRecord(s.data[0], e1, 0);
    assert t in s.data[0].eventListeners && s.data[0].eventListeners[t] == l;
    assert PostRecord(s.data[0], e1, 0) == s.data[0].(pending := [RetryDispatch(l, e1, 0)]);
    assert s1.data == [ActivityData(a, false, map[t := l], [RetryDispatch(l, e1, 0)])];
    PostEffect(s1, e2, 0);
    var s2 := AfterPost(s1, e2, 0);
    assert Deliveries(s1.data, e2, 0) == [] + Deliveries([], e2, 0);
    assert s2.data[0] == PostRecord(s1.data[0], e2, 0);
    assert t in s1.data[0].eventListeners && s1.data[0].eventListeners[t] == l;
    assert [RetryDispatch(l, e1, 0)] + [RetryDispatch(l, e2, 0)] == [RetryDispatch(l, e1, 0), RetryDispatch(l, e2, 0)];
    assert PostRecord(s1.data[0], e2, 0)
        == s1.data[0].(pending := [RetryDispatch(l, e1, 0), RetryDispatch(l, e2, 0)]);
    assert s2.data == [ActivityData(a, false, map[t := l], [RetryDispatch(l, e1, 0), RetryDispatch(l, e2, 0)])];
    ResumeEffect(s2, a);
    LookupAt(s2.data, 0);
    FiredEach([RetryDispatch(l, e1, 0)], RetryDispatch(l, e2, 0));
    assert Fired([RetryDispatch(l, e1, 0)]) == [Invoked(l, e1)] + Fired([]);
  }

  // ---------------------------------------------------------------------------
  // The bus object
  // ---------------------------------------------------------------------------

  /** The process-wide bus: a mutable list of records and the log of listener invocations. */
  class EventBus {
    var data: seq<ActivityData>
    ghost var log: seq<Invocation>

    ghost predicate Valid()
      reads this
    {
      Unique(data)
    }

    ghost function State(): BusState
      reads this
    {
      BusState(data, log)
    }

    constructor ()
      ensures Valid() && data == [] && log == []
    {
      data := [];
      log := [];
    }

    method FindOrCreateActivityData(activity: ActivityId) returns (i: nat)
      requires Valid()
      modifies this`data
      ensures Valid() && (data, i) == FindOrCreate(old(data), activity)
    {
      var found := Find(data, activity);
      if found.None? {
        data := data + [ActivityData(activity, false, map[], [])];
        i := |data| - 1;
      } else {
        i := found.value;
      }
    }

    /** `post(event)` */
    method PostNow(event: Event)
      requires Valid()
      modifies this
      ensures Valid() && State() == AfterPost(old(State()), event, 0)
    {
      Post(event, 0);
    }

    /** `post(event, delay)` */
    method Post(event: Event, delay: int)
      requires Valid()
      modifies this
      ensures Valid() && State() == AfterPost(old(State()), event, delay)
    {
      var k := 0;
      while k < |data|
        invariant Valid() && k <= |data|
        invariant PostFrom(State(), event, delay, k) == AfterPost(old(State()), event, delay)
        decreases |data| - k
      {
        var d := data[k];
        if event.eventType in d.eventListeners {
          ScheduleEventListener(d.eventListeners[event.eventType], k, event, delay);
        }
        k := k + 1;
      }
    }

    method ScheduleEventListener(listener: ListenerId, i: nat, event: Event, delay: int)
      requires Valid() && i < |data|
      modifies this
      ensures Valid() && State() == AfterSchedule(old(State()), i, listener, event, delay)
    {
      var d := data[i];
      if !d.isInForeground {
        data := data[i := d.(pending := d.pending + [RetryDispatch(listener, event, delay)])];
      } else {
        // runOnUiThread { remove; invoke }, taken as running at once
        data := data[i := d.(eventListeners := d.eventListeners - {event.eventType})];
        InvokeEventListener(listener, event, delay);
      }
      LookupUpdate(old(data), i, data[i]);
    }

    method InvokeEventListener(listener: ListenerId, event: Event, delay: int)
      modifies this`log
      ensures log == old(log) + [Invoke(listener, event, delay)]
    {
      if delay > 0 {
        log := log + [Delayed(listener, event, delay)];  // Handler.postDelayed
      } else {
        log := log + [Invoked(listener, event)];
      }
    }

    method OnActivityPostResumed(activity: ActivityId)
      requires Valid()
      modifies this
      ensures Valid() && State() == AfterResume(old(State()), activity)
    {
      var i := FindOrCreateActivityData(activity);
      ghost var found := data;
      data := data[i := data[i].(isInForeground := true)];
      LookupUpdate(found, i, data[i]);
      ghost var target := Drain(State(), i);
      assert target == AfterResume(old(State()), activity);
      while |data[i].pending| > 0
        invariant Valid() && i < |data| && data[i].isInForeground
        invariant Drain(State(), i) == target
        decreases |data[i].pending|
      {
        ghost var before := State();
        var action := data[i].pending[0];
        data := data[i := data[i].(pending := data[i].pending[1..])];
        LookupUpdate(before.data, i, data[i]);
        ghost var popped := State();
        RunInPlace(popped, i, action);
        match action {
          case RetryRegister(t, l) => RegisterActivityEventListener(data[i].activity, t, l);
          case RetryDispatch(l, e, delay) => ScheduleEventListener(l, i, e, delay);
        }
        assert State() == Run(popped, i, action);
        assert State().data == before.data[i := before.data[i].(pending := before.data[i].pending[1..],
          eventListeners := Step(before.data[i].eventListeners, action))];
      }
    }

    method OnActivityPaused(activity: ActivityId)
      requires Valid()
      modifies this
      ensures Valid() && State() == AfterPause(old(State()), activity)
    {
      var i := FindOrCreateActivityData(activity);
      ghost var found := data;
      data := data[i := data[i].(isInForeground := false)];
      LookupUpdate(found, i, data[i]);
    }

    method OnActivityDestroyed(activity: ActivityId)
      requires Valid()
      modifies this
      ensures Valid() && State() == AfterDestroy(old(State()), activity)
    {
      var found := Find(data, activity);
      if found.Some? {
        LookupRemove(data, found.value);
        data := data[..found.value] + data[found.value + 1..];
      }
    }

    method RegisterActivityEventListener(activity: ActivityId, eventType: EventType, listener: ListenerId)
      requires Valid()
      modifies this
      ensures Valid() && State() == AfterRegister(old(State()), activity, eventType, listener)
    {
      var i := FindOrCreateActivityData(activity);
      ghost var found := data;
      var d := data[i];
      if !d.isInForeground {
        data := data[i := d.(pending := d.pending + [RetryRegister(eventType, listener)])];
      } else {
        data := data[i := d.(eventListeners := d.eventListeners[eventType := listener])];
      }
      LookupUpdate(found, i, data[i]);
    }
  }
}
