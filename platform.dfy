/**
 * Types shared by the event bus and the activity-result bridges, and the one
 * piece of logic both bridges repeat: look up a result mapper by result code,
 * apply it to the returned intent, and post what it yields unless it is null.
 */
module Platform {
  import opened Wrappers

  /** Identity of one activity instance (the source compares activities by reference). */
  type ActivityId = int
  /** Stands for the runtime class of an event, the key the bus dispatches on. */
  type EventType = int
  /** Identity of a listener closure handed to the bus. */
  type ListenerId = int
  /** Identity of a consumer closure (`FunctionalInterfaces.Consumer`). */
  type ConsumerId = int
  /** Identity of a zero-argument closure (`FunctionalInterfaces.Procedure`). */
  type ProcedureId = int

  /** An application event; only its type takes part in dispatch. */
  datatype Event = Event(eventType: EventType, payload: int)

  /** An intent, treated as an opaque value. */
  datatype Intent = Intent(id: int)

  /** The extras bundle of `startActivity(intent, options)`, treated as an opaque value. */
  datatype Bundle = Bundle(id: int)

  /** What a launched activity hands back: a result code and an optional data intent. */
  datatype ActivityResult = ActivityResult(resultCode: int, data: Option<Intent>)

  /** A result mapper registered for one result code. */
  datatype ResultMapper =
    | MapTo(f: Option<Intent> -> Option<Event>)  // a mapper proper; None stands for null
    | ConsumeThenNull(consumer: ConsumerId)      // `doOnResult`: calls the consumer, yields null

  /** Observable effects of the bridges and the activity wrapper. */
  datatype Effect =
    | Posted(event: Event)                        // ActivityResultEventBus.post(event)
    | Consumed(consumer: ConsumerId, data: Option<Intent>)
    | Ran(procedure: ProcedureId)
    | Launched(intent: Intent)                    // activityLauncher.launch(intent)
    | LaunchedForResult(intent: Intent, requestCode: int)

  /** The value a mapper yields for the returned data intent (None is null). */
  function Yield(m: ResultMapper, data: Option<Intent>): Option<Event>
  {
    match m
    case MapTo(f) => f(data)
    case ConsumeThenNull(_) => None
  }

  /** The calls a mapper makes into user code while it runs. */
  function Calls(m: ResultMapper, data: Option<Intent>): seq<Effect>
  {
    match m
    case MapTo(_) => []
    case ConsumeThenNull(c) => [Consumed(c, data)]
  }

  /** `mappers[code]?.invoke(data)?.let { post(it) }` as a sequence of effects. */
  function MapAndPost(mappers: map<int, ResultMapper>, code: int, data: Option<Intent>): (r: seq<Effect>)
    ensures code !in mappers ==> r == []
    ensures |r| <= 2
    ensures forall k :: 0 <= k < |r| ==> r[k].Posted? || r[k].Consumed?
  {
    if code !in mappers then []
    else
      var m := mappers[code];
      Calls(m, data) + (if Yield(m, data).Some? then [Posted(Yield(m, data).value)] else [])
  }

  /** The events posted by a sequence of effects, in order. */
  function PostsOf(effects: seq<Effect>): (r: seq<Event>)
    ensures |r| <= |effects|
  {
    if effects == [] then []
    else (if effects[0].Posted? then [effects[0].event] else []) + PostsOf(effects[1..])
  }

  lemma {:induction false} PostsOfAppend(a: seq<Effect>, b: seq<Effect>)
    ensures PostsOf(a + b) == PostsOf(a) + PostsOf(b)
  {
    if a == [] {
      assert a + b == b;
    } else {
      assert (a + b)[0] == a[0];
      assert (a + b)[1..] == a[1..] + b;
      PostsOfAppend(a[1..], b);
    }
  }

  /** Mapping a result posts exactly one event, the mapper's value, when a mapper is
      registered for the code and yields non-null; otherwise it posts nothing. */
  lemma MapAndPostPostsIff(mappers: map<int, ResultMapper>, code: int, data: Option<Intent>)
    ensures PostsOf(MapAndPost(mappers, code, data)) ==
      if code in mappers && Yield(mappers[code], data).Some?
      then [Yield(mappers[code], data).value] else []
  {
    if code in mappers {
      var m := mappers[code];
      var tail := if Yield(m, data).Some? then [Posted(Yield(m, data).value)] else [];
      PostsOfAppend(Calls(m, data), tail);
      assert PostsOf(Calls(m, data)) == [] by {
        if m.ConsumeThenNull? {
          assert PostsOf(Calls(m, data)) == [] + PostsOf([]);
        }
      }
      if tail != [] {
        assert PostsOf(tail) == [Yield(m, data).value] + PostsOf([]);
      }
    }
  }

  /** A `doOnResult` entry calls its consumer with the data intent and posts nothing. */
  lemma ConsumerPostsNothing(mappers: map<int, ResultMapper>, code: int, data: Option<Intent>)
    requires code in mappers && mappers[code].ConsumeThenNull?
    ensures MapAndPost(mappers, code, data) == [Consumed(mappers[code].consumer, data)]
    ensures PostsOf(MapAndPost(mappers, code, data)) == []
  {
    MapAndPostPostsIff(mappers, code, data);
  }
}
