/**
 * The activity base class `AppCompatActivityWithActivityResultEventBus`.
 *
 * It holds a listener map and three FIFO queues of closures that other parts of the
 * library fill. The platform callbacks drain those queues: the activity-result
 * launcher callback, and `onRequestPermissionsResult`. `onDestroy` empties
 * everything. `findFrom` walks a context's chain of base contexts back to the
 * activity.
 */
module AppCompatActivityWithActivityResultEventBus {
  import opened Wrappers
  import opened Platform
  import Bus = ActivityResultEventBus

  /** The closure `ExternalActivityCompatibilityLayer.startActivity` queues: map the result
      through a table of result mappers and post what comes out. */
  datatype ResultParser = ParseWith(resultMappers: map<int, ResultMapper>)

  /** What running one queued parser on a result does. */
  function Parse(p: ResultParser, result: ActivityResult): seq<Effect>
  {
    MapAndPost(p.resultMappers, result.resultCode, result.data)
  }

  /** The effects of running the parsers of a queue on one result, front first. */
  function ParseAll(q: seq<ResultParser>, result: ActivityResult): (r: seq<Effect>)
    ensures forall k :: 0 <= k < |r| ==> r[k].Posted? || r[k].Consumed?
  {
    if q == [] then [] else Parse(q[0], result) + ParseAll(q[1..], result)
  }

  /** The effects of running the procedures of a queue, front first. */
  function RunAll(q: seq<ProcedureId>): (r: seq<Effect>)
    ensures PostsOf(r) == []
  {
    if q == [] then []
    else
      var r := [Ran(q[0])] + RunAll(q[1..]);
      assert r[1..] == RunAll(q[1..]);
      r
  }

  /** Draining a procedure queue runs every procedure exactly once, in FIFO order. */
  lemma {:induction false} RunAllInOrder(q: seq<ProcedureId>)
    ensures |RunAll(q)| == |q|
    ensures forall k :: 0 <= k < |q| ==> RunAll(q)[k] == Ran(q[k])
  {
    if q != [] {
      RunAllInOrder(q[1..]);
      assert forall k :: 1 <= k < |q| ==> RunAll(q)[k] == RunAll(q[1..])[k - 1];
    }
  }

  /** Draining parsers in FIFO order: the effects of a queue are those of its parts, front first. */
  lemma {:induction false} ParseAllAppend(q1: seq<ResultParser>, q2: seq<ResultParser>, result: ActivityResult)
    ensures ParseAll(q1 + q2, result) == ParseAll(q1, result) + ParseAll(q2, result)
  {
    if q1 == [] {
      assert q1 + q2 == q2;
    } else {
      assert (q1 + q2)[0] == q1[0] && (q1 + q2)[1..] == q1[1..] + q2;
      ParseAllAppend(q1[1..], q2, result);
    }
  }

  /** The event one parser posts for a result, if any: the mapped value, when its table has a
      mapper for the result code and that mapper yields non-null. */
  function ParsedEvent(p: ResultParser, result: ActivityResult): seq<Event>
  {
    var m := p.resultMappers;
    if result.resultCode in m && Yield(m[result.resultCode], result.data).Some?
    then [Yield(m[result.resultCode], result.data).value]
    else []
  }

  /** The events a queue of parsers posts, front first, stated without reference to effects. */
  function ParsedEvents(q: seq<ResultParser>, result: ActivityResult): seq<Event>
  {
    if q == [] then [] else ParsedEvent(q[0], result) + ParsedEvents(q[1..], result)
  }

  /** Draining the parse queue posts, in queue order, exactly the events its parsers map the result to. */
  lemma {:induction false} ParseAllPosts(q: seq<ResultParser>, result: ActivityResult)
    ensures PostsOf(ParseAll(q, result)) == ParsedEvents(q, result)
    ensures |ParsedEvents(q, result)| <= |q|
  {
    if q != [] {
      ParseAllPosts(q[1..], result);
      PostsOfAppend(Parse(q[0], result), ParseAll(q[1..], result));
      MapAndPostPostsIff(q[0].resultMappers, result.resultCode, result.data);
    }
  }

  // ---------------------------------------------------------------------------
  // findFrom
  // ---------------------------------------------------------------------------

  /** The kinds of context the lookup distinguishes. A plain activity is an
      `android.view.ContextThemeWrapper` whose base is the application's context. */
  datatype ContextKind = ViewThemeWrapper | AppCompatThemeWrapper | OtherContext

  /** A context: an activity of this class, or a context with an optional base context. */
  datatype Context =
    | OfActivity(activity: Activity)
    | Wrapper(kind: ContextKind, base: Option<Context>)

  datatype ContextError = InvalidContextType

  /** `findFrom` */
  function FindFrom(context: Context): (r: Result<Activity, ContextError>)
    ensures r.Success? ==> context.OfActivity? || Followed(context)
  {
    match context
    case OfActivity(a) => Success(a)
    case Wrapper(kind, base) =>
      if kind == ViewThemeWrapper && base.Some? then FindFrom(base.value)
      else if kind == AppCompatThemeWrapper && base.Some? then FindFrom(base.value)
      else Failure(InvalidContextType)
  }

  /** The context k steps down the base-context chain, if the chain is that long. */
  function Ancestor(context: Context, k: nat): Option<Context>
  {
    if k == 0 then Some(context)
    else match context
      case Wrapper(_, Some(b)) => Ancestor(b, k - 1)
      case _ => None
  }

  /** A context whose base the lookup follows: a theme wrapper of either kind with a base. */
  predicate Followed(c: Context)
  {
    c.Wrapper? && c.kind != OtherContext && c.base.Some?
  }

  /** If the chain reaches an activity of this class through followed contexts only, `findFrom` returns it. */
  lemma {:induction false} FindFromComplete(context: Context, k: nat, a: Activity)
    requires Ancestor(context, k) == Some(OfActivity(a))
    requires forall j :: 0 <= j < k ==> Ancestor(context, j).Some? && Followed(Ancestor(context, j).value)
    ensures FindFrom(context) == Success(a)
  {
    if k > 0 {
      assert Ancestor(context, 0) == Some(context);
      var b := context.base.value;
      forall j | 0 <= j < k - 1 ensures Ancestor(b, j).Some? && Followed(Ancestor(b, j).value) {
        assert Ancestor(context, j + 1) == Ancestor(b, j);
      }
      FindFromComplete(b, k - 1, a);
    }
  }

  /** What `findFrom` returns is the first context of the chain that is an activity of this class,
      reached through followed contexts only; when there is none it fails. */
  lemma {:induction false} FindFromSound(context: Context) returns (k: nat)
    requires FindFrom(context).Success?
    ensures Ancestor(context, k) == Some(OfActivity(FindFrom(context).value))
    ensures forall j :: 0 <= j < k ==> Ancestor(context, j).Some? && Followed(Ancestor(context, j).value)
  {
    match context
    case OfActivity(a) =>
      k := 0;
    case Wrapper(kind, base) =>
      var b := base.value;
      var k' := FindFromSound(b);
      k := k' + 1;
      forall j | 0 <= j < k ensures Ancestor(context, j).Some? && Followed(Ancestor(context, j).value) {
        if j > 0 {
          assert Ancestor(context, j) == Ancestor(b, j - 1);
        }
      }
  }

  /** The activity `findFrom` resolves a context to, as a frame. */
  function ActivityOf(context: Option<Context>): set<Activity>
  {
    if context.Some? && FindFrom(context.value).Success? then {FindFrom(context.value).value} else {}
  }

  // ---------------------------------------------------------------------------
  // The activity
  // ---------------------------------------------------------------------------

  class Activity {
    /** The identity the bus keys this activity by. */
    const id: ActivityId
    /** `rawAREBEventListeners`: at most one listener per event type. */
    var eventListeners: map<EventType, ConsumerId>
    /** `actionsToParseOnActivityResult` */
    var parseQueue: seq<ResultParser>
    /** `actionsToDoAfterOnActivityResult` */
    var afterResultQueue: seq<ProcedureId>
    /** `actionsToDoOnRequestPermissionsResult` */
    var permissionsQueue: seq<ProcedureId>
    /** What the activity has done that is visible outside it, in order. */
    ghost var effects: seq<Effect>

    constructor (id: ActivityId)
      ensures this.id == id && eventListeners == map[] && effects == []
      ensures parseQueue == [] && afterResultQueue == [] && permissionsQueue == []
    {
      this.id := id;
      eventListeners := map[];
      parseQueue := [];
      afterResultQueue := [];
      permissionsQueue := [];
      effects := [];
    }

    /** `onActivityResult(eventType, listener)`: install or replace the one listener for the type. */
    method OnActivityResult(eventType: EventType, listener: ConsumerId)
      modifies this`eventListeners
      ensures eventListeners == old(eventListeners)[eventType := listener]
      ensures eventType in eventListeners && eventListeners[eventType] == listener
      ensures eventListeners.Keys == old(eventListeners.Keys) + {eventType}
    {
      eventListeners := eventListeners[eventType := listener];
    }

    /** The callback of the activity-result launcher. A null result leaves the parse queue as it is;
        the after-result queue is always drained. */
    method OnLauncherResult(result: Option<ActivityResult>)
      modifies this`parseQueue, this`afterResultQueue, this`effects
      ensures afterResultQueue == []
      ensures result.Some? ==> parseQueue == []
      ensures result.Some? ==>
        effects == old(effects) + ParseAll(old(parseQueue), result.value) + RunAll(old(afterResultQueue))
      ensures result.None? ==> parseQueue == old(parseQueue)
      ensures result.None? ==> effects == old(effects) + RunAll(old(afterResultQueue))
    {
      if result.Some? {
        DrainParseQueue(result.value);
      }
      DrainAfterResultQueue();
    }

    /** The first loop of the launcher callback, for a non-null result. */
    method DrainParseQueue(result: ActivityResult)
      modifies this`parseQueue, this`effects
      ensures parseQueue == []
      ensures effects == old(effects) + ParseAll(old(parseQueue), result)
    {
      while |parseQueue| > 0
        invariant effects + ParseAll(parseQueue, result) == old(effects) + ParseAll(old(parseQueue), result)
        decreases |parseQueue|
      {
        var parser := parseQueue[0];
        parseQueue := parseQueue[1..];
        effects := effects + Parse(parser, result);
      }
    }

    /** The second loop of the launcher callback. */
    method DrainAfterResultQueue()
      modifies this`afterResultQueue, this`effects
      ensures afterResultQueue == []
      ensures effects == old(effects) + RunAll(old(afterResultQueue))
    {
      while |afterResultQueue| > 0
        invariant effects + RunAll(afterResultQueue) == old(effects) + RunAll(old(afterResultQueue))
        decreases |afterResultQueue|
      {
        var procedure := afterResultQueue[0];
        afterResultQueue := afterResultQueue[1..];
        effects := effects + [Ran(procedure)];
      }
    }

    /** `startActivity(intent)`: launch for a result, unless the intent is null. */
    method StartActivity(intent: Option<Intent>)
      modifies this`effects
      ensures intent.None? ==> effects == old(effects)
      ensures intent.Some? ==> effects == old(effects) + [Launched(intent.value)]
    {
      if intent.Some? {
        effects := effects + [Launched(intent.value)];
      }
    }

    /** `startActivity(intent, options)`: as above; the options are copied into the intent's extras. */
    method StartActivityWithOptions(intent: Option<Intent>, options: Option<Bundle>)
      modifies this`effects
      ensures intent.None? ==> effects == old(effects)
      ensures intent.Some? ==> effects == old(effects) + [Launched(intent.value)]
    {
      if intent.Some? {
        effects := effects + [Launched(intent.value)];
      }
    }

    /** `onRequestPermissionsResult`: drain the permissions queue, leaving the other queues alone. */
    method OnRequestPermissionsResult()
      modifies this`permissionsQueue, this`effects
      ensures permissionsQueue == []
      ensures effects == old(effects) + RunAll(old(permissionsQueue))
    {
      while |permissionsQueue| > 0
        invariant effects + RunAll(permissionsQueue) == old(effects) + RunAll(old(permissionsQueue))
        decreases |permissionsQueue|
      {
        var procedure := permissionsQueue[0];
        permissionsQueue := permissionsQueue[1..];
        effects := effects + [Ran(procedure)];
      }
    }

    /** `onDestroy`: evict this activity from the bus, then empty the listener map and every queue. */
    method OnDestroy(bus: Bus.EventBus)
      requires bus.Valid()
      modifies bus, this`eventListeners, this`parseQueue, this`afterResultQueue, this`permissionsQueue
      ensures bus.Valid() && bus.State() == Bus.AfterDestroy(old(bus.State()), id)
      ensures eventListeners == map[] && parseQueue == [] && afterResultQueue == [] && permissionsQueue == []
    {
      bus.OnActivityDestroyed(id);
      eventListeners := map[];
      parseQueue := [];
      afterResultQueue := [];
      permissionsQueue := [];
    }
  }
}
