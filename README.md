# ActivityResultEventBus in Dafny

This project models ActivityResultEventBus, an Android library. It lets an activity receive the
results of activities it launched as typed events on a process-wide bus. The bus delivers an
event only to activities in the foreground. It defers delivery to an activity in the background
until that activity is resumed.

The model covers four parts:

- **The bus** (`event_bus.dfy`, module `ActivityResultEventBus`).
  - The record list, with a foreground flag, a listener map and a queue of deferred closures per activity.
  - `post` with and without a delay, and the scheduling of listeners.
  - Registration of a listener.
  - The lifecycle callbacks: post-resumed (which drains the queue), paused and destroyed.
  - The class `EventBus` performs each operation in place. Each method is proved to compute
    exactly a pure transition on `BusState`. The lemmas about those transitions state what the
    library promises.
  - Deferred closures are defunctionalised into two constructors: `RetryRegister` and `RetryDispatch`.
  - The log of listener invocations records what the listeners observe.
- **The activity base class** (`activity_with_bus.dfy`).
  - The per-activity listener map and three FIFO queues: parse-on-result, after-result and on-permissions.
  - The activity-result launcher callback that drains them.
  - The null guards of `startActivity`.
  - `onDestroy`.
  - `findFrom`, which walks a context's chain of base contexts back to the activity.
- **The compatibility layer for external activities** (`compatibility_layer.dfy`).
  - The table of result mappers.
  - The error order of `startActivity`.
  - The parser that `startActivity` queues on the calling activity.
- **The bridge activity for plain Android activities** (`vanilla_compat.dfy`).
  - The `Builder` and its checks.
  - The bridge's `onCreate`: it launches for a result under request code 1234 and then runs the started hook.
  - The bridge's `onActivityResult`: it maps and posts, runs the stopped hook and finishes.

`platform.dfy` holds the Android-side values as plain data: events, intents, activity results,
result mappers, and the effects an activity has on the outside world. `wrappers.dfy` holds
`Option` and `Result`.

Activities, event classes, listeners, consumers and procedures are represented by integer
identities. An event is its class plus a payload.

## Model

| member | source | states |
|---|---|---|
| ActivityResultEventBus.Find | activityresulteventbus/src/main/java/ro/andreidobrescu/activityresulteventbus/ActivityResultEventBus.kt:90 | the index found holds the activity and is the first such; none is found only when no record holds it |
| ActivityResultEventBus.FindOrCreate | activityresulteventbus/src/main/java/ro/andreidobrescu/activityresulteventbus/ActivityResultEventBus.kt:88-98 | the index holds the activity; an existing record leaves the list unchanged; otherwise one fresh background record with no listeners is appended; no duplicates are introduced |
| ActivityResultEventBus.FindOrCreateKeepsView | activityresulteventbus/src/main/java/ro/andreidobrescu/activityresulteventbus/ActivityResultEventBus.kt:88-98 | finding or creating a record never changes what the bus holds for any activity |
| ActivityResultEventBus.LookupRemove | activityresulteventbus/src/main/java/ro/andreidobrescu/activityresulteventbus/ActivityResultEventBus.kt:118-123 | removing an activity's record forgets that activity, keeps every other activity's record and keeps the list free of duplicates |
| ActivityResultEventBus.RunInPlace | activityresulteventbus/src/main/java/ro/andreidobrescu/activityresulteventbus/ActivityResultEventBus.kt:53-65 | on a foreground record, a deferred action runs in place: a retried registration sets the listener and a retried dispatch removes it and invokes it; nothing is queued again |
| ActivityResultEventBus.AfterRegister | activityresulteventbus/src/main/java/ro/andreidobrescu/activityresulteventbus/ActivityResultEventBus.kt:126-139 | the register transition: registration never invokes a listener; the list keeps its length for a known activity and gains exactly one record for an unknown one |
| ActivityResultEventBus.Invoke | activityresulteventbus/src/main/java/ro/andreidobrescu/activityresulteventbus/ActivityResultEventBus.kt:69-85 | an invocation calls the given listener with the given event, synchronously exactly when the delay is 0 or less, and otherwise handed to a timer with that same delay |
| ActivityResultEventBus.AfterSchedule | activityresulteventbus/src/main/java/ro/andreidobrescu/activityresulteventbus/ActivityResultEventBus.kt:46-66 | the schedule transition on one record: only that record changes, and exactly one invocation is logged when the record is in the foreground and none otherwise |
| ActivityResultEventBus.RegisterWhileBackground | activityresulteventbus/src/main/java/ro/andreidobrescu/activityresulteventbus/ActivityResultEventBus.kt:126-134 | registering for an activity that is not in the foreground, or unknown, queues one retry at the back of its queue and changes nothing else: other activities' records, the log, the order of records and, for a known activity, the length of the list are kept |
| ActivityResultEventBus.RegisterWhileForeground | activityresulteventbus/src/main/java/ro/andreidobrescu/activityresulteventbus/ActivityResultEventBus.kt:135-138 | registering for a foreground activity sets or replaces its single listener for the type; no other record and no log entry changes |
| ActivityResultEventBus.PostFrom | activityresulteventbus/src/main/java/ro/andreidobrescu/activityresulteventbus/ActivityResultEventBus.kt:37-42 | the post loop from record k on keeps the number of records and logs at most one invocation per record visited |
| ActivityResultEventBus.AfterPost | activityresulteventbus/src/main/java/ro/andreidobrescu/activityresulteventbus/ActivityResultEventBus.kt:34-43 | the post transition: the number of records is kept and at most one invocation per record is logged |
| ActivityResultEventBus.PostFromEffect | activityresulteventbus/src/main/java/ro/andreidobrescu/activityresulteventbus/ActivityResultEventBus.kt:37-42 | the post loop from record k on treats each record independently and logs the deliveries of those records in list order |
| ActivityResultEventBus.PostFromRecords | activityresulteventbus/src/main/java/ro/andreidobrescu/activityresulteventbus/ActivityResultEventBus.kt:37-42 | the post loop from record k on leaves the records before k alone and applies the record-wise rule to each record from k on |
| ActivityResultEventBus.PostFromLog | activityresulteventbus/src/main/java/ro/andreidobrescu/activityresulteventbus/ActivityResultEventBus.kt:37-42 | the post loop from record k on logs exactly the deliveries of the records from k on, in list order |
| ActivityResultEventBus.PostEffect | activityresulteventbus/src/main/java/ro/andreidobrescu/activityresulteventbus/ActivityResultEventBus.kt:34-43 | post keeps the list and its order; each record is changed as the record-wise rule says; the log grows by exactly one invocation per foreground record with a listener for the event's class, in list order |
| ActivityResultEventBus.PostWithoutListeners | activityresulteventbus/src/main/java/ro/andreidobrescu/activityresulteventbus/ActivityResultEventBus.kt:37-42 | with no listener for the event's class in any record, post changes nothing |
| ActivityResultEventBus.DeliveriesTiming | activityresulteventbus/src/main/java/ro/andreidobrescu/activityresulteventbus/ActivityResultEventBus.kt:75-84 | with delay 0 every delivery is a synchronous call; with a positive delay every delivery is handed to a timer with that delay |
| ActivityResultEventBus.SecondPostDeliversNothing | activityresulteventbus/src/main/java/ro/andreidobrescu/activityresulteventbus/ActivityResultEventBus.kt:61-63 | once every record is in the foreground, a post removes each listener it fires, so a second post of the same class delivers nothing and changes nothing |
| ActivityResultEventBus.PostTwiceDeliversOnce | activityresulteventbus/src/main/java/ro/andreidobrescu/activityresulteventbus/ActivityResultEventBus.kt:53-63 | on any bus, a second post of the same class invokes no listener and leaves every foreground record as the first post left it |
| ActivityResultEventBus.FiredEach | activityresulteventbus/src/main/java/ro/andreidobrescu/activityresulteventbus/ActivityResultEventBus.kt:106-107 | draining a queue fires each queued dispatch exactly once, in FIFO order; a queued registration fires nothing |
| ActivityResultEventBus.Drain | activityresulteventbus/src/main/java/ro/andreidobrescu/activityresulteventbus/ActivityResultEventBus.kt:106-107 | the drain loop on one record keeps the number of records, leaves that record's queue empty and keeps its activity and foreground flag |
| ActivityResultEventBus.DrainEffect | activityresulteventbus/src/main/java/ro/andreidobrescu/activityresulteventbus/ActivityResultEventBus.kt:106-107 | the drain empties the queue; the listener map becomes the queued registrations and dispatches replayed in order; the log grows by the queued dispatches in order; no other record changes |
| ActivityResultEventBus.ReplaySnoc | activityresulteventbus/src/main/java/ro/andreidobrescu/activityresulteventbus/ActivityResultEventBus.kt:106-107 | the action at the back of the queue is applied to the listener map last, after all earlier queued actions |
| ActivityResultEventBus.AfterResume | activityresulteventbus/src/main/java/ro/andreidobrescu/activityresulteventbus/ActivityResultEventBus.kt:101-108 | the resume transition: the activity has a record that is in the foreground with an empty queue; the list keeps its length for a known activity and gains exactly one record for an unknown one |
| ActivityResultEventBus.ResumeEffect | activityresulteventbus/src/main/java/ro/andreidobrescu/activityresulteventbus/ActivityResultEventBus.kt:101-108 | after resume the activity is in the foreground with an empty queue, the replayed listener map and the queued deliveries logged; other records are unchanged; the list grows only when the activity was unknown |
| ActivityResultEventBus.RegisterThenResume | activityresulteventbus/src/main/java/ro/andreidobrescu/activityresulteventbus/ActivityResultEventBus.kt:101-108 | on any bus, a registration made while the activity is in the background is installed by the next resume, after the actions queued before it, and the resume fires exactly the dispatches queued before it |
| ActivityResultEventBus.AfterPause | activityresulteventbus/src/main/java/ro/andreidobrescu/activityresulteventbus/ActivityResultEventBus.kt:111-115 | the pause transition: the activity has a record that is not in the foreground, no listener is invoked; the list keeps its length for a known activity and gains exactly one record for an unknown one |
| ActivityResultEventBus.PauseEffect | activityresulteventbus/src/main/java/ro/andreidobrescu/activityresulteventbus/ActivityResultEventBus.kt:111-115 | pause clears the foreground flag only: listeners, queue, other records, the log and, for a known activity, the length of the list are kept; an unknown activity gets exactly one fresh record |
| ActivityResultEventBus.AfterDestroy | activityresulteventbus/src/main/java/ro/andreidobrescu/activityresulteventbus/ActivityResultEventBus.kt:118-123 | the destroy transition: no listener is invoked, and the list loses one record exactly when the activity had one |
| ActivityResultEventBus.WithoutRemove | activityresulteventbus/src/main/java/ro/andreidobrescu/activityresulteventbus/ActivityResultEventBus.kt:120-122 | in a list without duplicates, removing the activity's one record is the same as filtering that activity out |
| ActivityResultEventBus.DestroyEffect | activityresulteventbus/src/main/java/ro/andreidobrescu/activityresulteventbus/ActivityResultEventBus.kt:118-123 | destroy filters the activity's record out; afterwards no record holds it and every other record is unchanged; the log is unchanged |
| ActivityResultEventBus.DestroyIdempotent | activityresulteventbus/src/main/java/ro/andreidobrescu/activityresulteventbus/ActivityResultEventBus.kt:118-123 | destroying twice is the same as destroying once |
| ActivityResultEventBus.RegisterAfterDestroy | activityresulteventbus/src/main/java/ro/andreidobrescu/activityresulteventbus/ActivityResultEventBus.kt:88-98 | registering for a destroyed activity appends a fresh background record holding one queued retry |
| ActivityResultEventBus.ScenarioRegisterBeforeResume | activityresulteventbus/src/main/java/ro/andreidobrescu/activityresulteventbus/ActivityResultEventBus.kt:101-139 | a listener registered before the first resume is installed by that resume; the next post fires it once and a further post does not |
| ActivityResultEventBus.ScenarioFanOut | activityresulteventbus/src/main/java/ro/andreidobrescu/activityresulteventbus/ActivityResultEventBus.kt:37-42 | two foreground activities that listen for the same class both receive one post, in list order |
| ActivityResultEventBus.ScenarioTwoPostsWhileBackground | activityresulteventbus/src/main/java/ro/andreidobrescu/activityresulteventbus/ActivityResultEventBus.kt:53-58 | two posts while the activity is in the background queue two dispatches; the resume fires the listener for both |
| ActivityResultEventBus.EventBus.FindOrCreateActivityData | activityresulteventbus/src/main/java/ro/andreidobrescu/activityresulteventbus/ActivityResultEventBus.kt:88-98 | the list and the returned index are those of FindOrCreate, and there are still no duplicates |
| ActivityResultEventBus.EventBus.Post | activityresulteventbus/src/main/java/ro/andreidobrescu/activityresulteventbus/ActivityResultEventBus.kt:34-43 | performs the post transition in place, keeping the invariant |
| ActivityResultEventBus.EventBus.PostNow | activityresulteventbus/src/main/java/ro/andreidobrescu/activityresulteventbus/ActivityResultEventBus.kt:31 | a post with delay 0 |
| ActivityResultEventBus.EventBus.ScheduleEventListener | activityresulteventbus/src/main/java/ro/andreidobrescu/activityresulteventbus/ActivityResultEventBus.kt:46-66 | queues a retry on a background record; on a foreground record removes the listener and invokes it |
| ActivityResultEventBus.EventBus.InvokeEventListener | activityresulteventbus/src/main/java/ro/andreidobrescu/activityresulteventbus/ActivityResultEventBus.kt:69-85 | logs one invocation, synchronous or delayed by the delay |
| ActivityResultEventBus.EventBus.OnActivityPostResumed | activityresulteventbus/src/main/java/ro/andreidobrescu/activityresulteventbus/ActivityResultEventBus.kt:101-108 | performs the resume transition in place; each popped closure is run by re-invoking the real registration or scheduling, and is proved to act in place on the foreground record |
| ActivityResultEventBus.EventBus.OnActivityPaused | activityresulteventbus/src/main/java/ro/andreidobrescu/activityresulteventbus/ActivityResultEventBus.kt:111-115 | performs the pause transition in place |
| ActivityResultEventBus.EventBus.OnActivityDestroyed | activityresulteventbus/src/main/java/ro/andreidobrescu/activityresulteventbus/ActivityResultEventBus.kt:118-123 | performs the destroy transition in place |
| ActivityResultEventBus.EventBus.RegisterActivityEventListener | activityresulteventbus/src/main/java/ro/andreidobrescu/activityresulteventbus/ActivityResultEventBus.kt:126-139 | performs the register transition in place |
| Platform.MapAndPost | activityresulteventbus/src/main/java/ro/andreidobrescu/activityresulteventbus/ExternalActivityCompatibilityLayer.kt:24-26 | a missing mapper does nothing; otherwise at most a consumer call and one post, and nothing else |
| Platform.MapAndPostPostsIff | activityresulteventbus/src/main/java/ro/andreidobrescu/activityresulteventbus/ExternalActivityCompatibilityLayer.kt:24-26 | mapping a result posts exactly one event when a mapper exists for the result code and yields non-null, and that event is the mapped value; otherwise it posts nothing |
| Platform.ConsumerPostsNothing | activityresulteventbus/src/main/java/ro/andreidobrescu/activityresulteventbus/ExternalActivityCompatibilityLayer.kt:11-13 | a mapper installed by doOnResult never posts |
| Platform.PostsOfAppend | activityresulteventbus/src/main/java/ro/andreidobrescu/activityresulteventbus/AppCompatActivityWithActivityResultEventBus.kt:23-27 | the events posted by two runs in sequence are those of the first followed by those of the second |
| AppCompatActivityWithActivityResultEventBus.ParseAll | activityresulteventbus/src/main/java/ro/andreidobrescu/activityresulteventbus/AppCompatActivityWithActivityResultEventBus.kt:23-24 | running the queued parsers only calls consumers and posts events |
| AppCompatActivityWithActivityResultEventBus.RunAll | activityresulteventbus/src/main/java/ro/andreidobrescu/activityresulteventbus/AppCompatActivityWithActivityResultEventBus.kt:26-27 | running queued procedures posts no event |
| AppCompatActivityWithActivityResultEventBus.RunAllInOrder | activityresulteventbus/src/main/java/ro/andreidobrescu/activityresulteventbus/AppCompatActivityWithActivityResultEventBus.kt:26-27 | draining a procedure queue runs every procedure exactly once, in FIFO order |
| AppCompatActivityWithActivityResultEventBus.ParseAllAppend | activityresulteventbus/src/main/java/ro/andreidobrescu/activityresulteventbus/AppCompatActivityWithActivityResultEventBus.kt:23-24 | draining a parse queue runs its parsers in FIFO order: the effects of a concatenated queue are those of its parts in order |
| AppCompatActivityWithActivityResultEventBus.ParseAllPosts | activityresulteventbus/src/main/java/ro/andreidobrescu/activityresulteventbus/AppCompatActivityWithActivityResultEventBus.kt:23-24 | the drained parse queue posts exactly the events its parsers map the result to, in queue order, and at most one per parser |
| AppCompatActivityWithActivityResultEventBus.FindFrom | activityresulteventbus/src/main/java/ro/andreidobrescu/activityresulteventbus/AppCompatActivityWithActivityResultEventBus.kt:82-94 | the lookup succeeds only on an activity of this class or on a theme wrapper with a base, which it follows |
| AppCompatActivityWithActivityResultEventBus.FindFromComplete | activityresulteventbus/src/main/java/ro/andreidobrescu/activityresulteventbus/AppCompatActivityWithActivityResultEventBus.kt:82-94 | a context whose chain reaches an activity of the class through theme wrappers with a base context resolves to that activity |
| AppCompatActivityWithActivityResultEventBus.FindFromSound | activityresulteventbus/src/main/java/ro/andreidobrescu/activityresulteventbus/AppCompatActivityWithActivityResultEventBus.kt:82-94 | a context that resolves does so to an activity reached down its chain through theme wrappers with a base context only |
| AppCompatActivityWithActivityResultEventBus.Activity.constructor | activityresulteventbus/src/main/java/ro/andreidobrescu/activityresulteventbus/AppCompatActivityWithActivityResultEventBus.kt:14-19 | a new activity has no listeners and three empty queues |
| AppCompatActivityWithActivityResultEventBus.Activity.OnActivityResult | activityresulteventbus/src/main/java/ro/andreidobrescu/activityresulteventbus/AppCompatActivityWithActivityResultEventBus.kt:50-53 | sets or replaces the one listener for the event class |
| AppCompatActivityWithActivityResultEventBus.Activity.OnLauncherResult | activityresulteventbus/src/main/java/ro/andreidobrescu/activityresulteventbus/AppCompatActivityWithActivityResultEventBus.kt:21-28 | with a result, runs all parsers on it in FIFO order, then all after-result procedures; without one, keeps the parsers queued and runs the procedures; the after-result queue is empty afterwards |
| AppCompatActivityWithActivityResultEventBus.Activity.DrainParseQueue | activityresulteventbus/src/main/java/ro/andreidobrescu/activityresulteventbus/AppCompatActivityWithActivityResultEventBus.kt:23-24 | runs every queued parser on the result, front first, and leaves the parse queue empty |
| AppCompatActivityWithActivityResultEventBus.Activity.DrainAfterResultQueue | activityresulteventbus/src/main/java/ro/andreidobrescu/activityresulteventbus/AppCompatActivityWithActivityResultEventBus.kt:26-27 | runs every after-result procedure, front first, and leaves that queue empty |
| AppCompatActivityWithActivityResultEventBus.Activity.StartActivity | activityresulteventbus/src/main/java/ro/andreidobrescu/activityresulteventbus/AppCompatActivityWithActivityResultEventBus.kt:30-34 | launches the intent, unless it is null |
| AppCompatActivityWithActivityResultEventBus.Activity.StartActivityWithOptions | activityresulteventbus/src/main/java/ro/andreidobrescu/activityresulteventbus/AppCompatActivityWithActivityResultEventBus.kt:36-43 | launches the intent, unless it is null |
| AppCompatActivityWithActivityResultEventBus.Activity.OnRequestPermissionsResult | activityresulteventbus/src/main/java/ro/andreidobrescu/activityresulteventbus/AppCompatActivityWithActivityResultEventBus.kt:55-61 | runs the permission procedures in FIFO order and empties that queue only |
| AppCompatActivityWithActivityResultEventBus.Activity.OnDestroy | activityresulteventbus/src/main/java/ro/andreidobrescu/activityresulteventbus/AppCompatActivityWithActivityResultEventBus.kt:69-77 | evicts the activity from the bus, then empties its listener map and every queue |
| ExternalActivityCompatibilityLayer.StartFailure | activityresulteventbus/src/main/java/ro/andreidobrescu/activityresulteventbus/ExternalActivityCompatibilityLayer.kt:17-21 | a missing intent, then a missing context, then an empty mapper table, then a context that does not resolve, is reported in that order; no error exactly when all four checks pass |
| ExternalActivityCompatibilityLayer.CompatibilityLayer.AddResultMapper | activityresulteventbus/src/main/java/ro/andreidobrescu/activityresulteventbus/ExternalActivityCompatibilityLayer.kt:9 | sets or replaces the mapper for the result code |
| ExternalActivityCompatibilityLayer.CompatibilityLayer.DoOnResult | activityresulteventbus/src/main/java/ro/andreidobrescu/activityresulteventbus/ExternalActivityCompatibilityLayer.kt:11-13 | sets or replaces the mapper for the result code with one that consumes the data and posts nothing |
| ExternalActivityCompatibilityLayer.CompatibilityLayer.StartActivity | activityresulteventbus/src/main/java/ro/andreidobrescu/activityresulteventbus/ExternalActivityCompatibilityLayer.kt:15-30 | reports the first failing check and changes nothing then; otherwise appends one parser over the table to the resolved activity's parse queue and launches the intent through it, changing nothing else |
| ExternalActivityCompatibilityLayer.ArmedQueuePosts | activityresulteventbus/src/main/java/ro/andreidobrescu/activityresulteventbus/ExternalActivityCompatibilityLayer.kt:23-27 | when the result arrives, the armed queue posts what the earlier parsers post, then the event this table maps the result to, if any; a doOnResult code adds nothing |
| VanillaActivityResultCompat.BuildRequest | activityresulteventbus/src/main/java/ro/andreidobrescu/activityresulteventbus/VanillaActivityResultCompat.kt:54-65 | a missing intent factory, then an empty mapper table, is reported; otherwise the launch carries the factory, the table and exactly the hooks that were set |
| VanillaActivityResultCompat.HookFailureSwallowed | activityresulteventbus/src/main/java/ro/andreidobrescu/activityresulteventbus/VanillaActivityResultCompat.kt:80-81 | a hook that throws lets the exception escape its call exactly when a hook is set, yet the enclosing try gives the same effects as a hook that returns |
| VanillaActivityResultCompat.CreateEffects | activityresulteventbus/src/main/java/ro/andreidobrescu/activityresulteventbus/VanillaActivityResultCompat.kt:77-81 | onCreate launches the factory's intent for a result under request code 1234 first, and has one more effect exactly when a started hook is set |
| VanillaActivityResultCompat.ResultEffects | activityresulteventbus/src/main/java/ro/andreidobrescu/activityresulteventbus/VanillaActivityResultCompat.kt:84-95 | the result callback launches no activity |
| VanillaActivityResultCompat.HookOutcomeIrrelevant | activityresulteventbus/src/main/java/ro/andreidobrescu/activityresulteventbus/VanillaActivityResultCompat.kt:80-95 | the effects of onCreate and of the result callback are the same whether the hook returns or throws |
| VanillaActivityResultCompat.CreateLaunchesOnce | activityresulteventbus/src/main/java/ro/andreidobrescu/activityresulteventbus/VanillaActivityResultCompat.kt:77-81 | onCreate first launches the factory's intent for a result under request code 1234; after that it runs only the started hook, if set, and it posts nothing |
| VanillaActivityResultCompat.ResultPosts | activityresulteventbus/src/main/java/ro/andreidobrescu/activityresulteventbus/VanillaActivityResultCompat.kt:84-90 | under request code 1234, exactly one event is posted when the table has a mapper for the result code that yields non-null, and it is the mapped value; otherwise nothing is posted; any other request code is ignored |
| VanillaActivityResultCompat.StoppedHookLast | activityresulteventbus/src/main/java/ro/andreidobrescu/activityresulteventbus/VanillaActivityResultCompat.kt:92-93 | under request code 1234 the stopped hook runs last, after the mapping and the post |
| VanillaActivityResultCompat.Builder.AddResultMapper | activityresulteventbus/src/main/java/ro/andreidobrescu/activityresulteventbus/VanillaActivityResultCompat.kt:52 | sets or replaces the mapper for the result code |
| VanillaActivityResultCompat.Builder.SetIntentFactory | activityresulteventbus/src/main/java/ro/andreidobrescu/activityresulteventbus/VanillaActivityResultCompat.kt:43 | sets the factory |
| VanillaActivityResultCompat.Builder.SetOnIntentActivityStarted | activityresulteventbus/src/main/java/ro/andreidobrescu/activityresulteventbus/VanillaActivityResultCompat.kt:46 | sets the started hook |
| VanillaActivityResultCompat.Builder.SetOnIntentActivityStopped | activityresulteventbus/src/main/java/ro/andreidobrescu/activityresulteventbus/VanillaActivityResultCompat.kt:49 | sets the stopped hook |
| VanillaActivityResultCompat.Builder.StartActivity | activityresulteventbus/src/main/java/ro/andreidobrescu/activityresulteventbus/VanillaActivityResultCompat.kt:54-65 | checks the configuration and launches the bridge with it, as BuildRequest says |
| VanillaActivityResultCompat.CompatActivity.constructor | activityresulteventbus/src/main/java/ro/andreidobrescu/activityresulteventbus/VanillaActivityResultCompat.kt:68-82 | onCreate reads the request back, launches the factory's intent for a result under code 1234, then runs the started hook, dropping any exception it throws |
| VanillaActivityResultCompat.CompatActivity.OnActivityResult | activityresulteventbus/src/main/java/ro/andreidobrescu/activityresulteventbus/VanillaActivityResultCompat.kt:84-97 | under request code 1234 maps and posts, runs the stopped hook and finishes whether that hook returns or throws; any other request code changes nothing |

## Left out

- Threading: `runOnUiThread` is taken to run its block at once. A positive delay is logged as a `Delayed` invocation rather than run later by a timer. No interleaving with other threads is modelled.
- Listener bodies are not modelled. A listener that posts or registers from inside its own call (re-entrancy) is therefore not covered.
- Event classes are integer tags. The reflective lookup by `event::class.java` matches one class exactly; subclasses are not considered.
- Records are values in a list rather than shared objects. A closure queued on a record therefore acts on the record as it is when the closure runs, which is also what the code does, because records are never copied.
- Destroying an activity is not terminal. A later registration or resume for it creates a fresh record. The model keeps this behaviour of the code.
- The bodies of the bridge activity's hooks are not modelled. How a hook's call ends, by returning or by throwing, is an input to the callbacks that run it.
- The parser queued by the compatibility layer captures the table at the time `startActivity` is called. The code captures the live map, so a mapper added between `startActivity` and the result would also be used. The model does not capture that.
- The parsers' posts are recorded as effects. They are not fed back into the bus's `post`.
- `context.startActivity(intent)` is taken to reach the resolved activity's `startActivity` override.
- The options bundle of `startActivity(intent, options)` is copied into the intent's extras. Extras are not modelled, so the model launches the intent unchanged.
- Intents, bundles, serialisation, `registerForActivityResult` and the Android activity lifecycle are not modelled. Intents and bundles are opaque identities.
- The bridge's own `onCreate` reads its extras back. The model passes the request directly to the constructor, so the round trip through serialisation is not modelled.
- ExternalActivityCompatibilityLayer.CompatibilityLayer.StartActivity: the precondition that the activity a context resolves to is allocated is a modelling artefact. Every activity is allocated in the program being modelled.
- The Java listener adapter (`ActivityResultEventBus.kt` lines 142-146) is not modelled. It only wraps its listener and forwards to `registerActivityEventListener`.
- The Kotlin extension helpers `Activity`/`Fragment`/`View.OnActivityResult` (`ActivityResultEventBus.kt` lines 150-175) are not modelled. They walk Android contexts and then register. The `View` variant loops forever on a context that is neither an activity nor a theme wrapper with a base.
- `ActivityResultEventBus.onActivityCreated` is called from `onCreate` (`AppCompatActivityWithActivityResultEventBus.kt` line 66) but is not defined in `ActivityResultEventBus.kt`. `VanillaActivityResultCompat.createCompatibilityLayer` only returns a new `Builder`. Neither is modelled. The sample app instead calls an `ActivityResultEventBus.createCompatibilityLayer()`, which `ActivityResultEventBus.kt` does not define either, and then uses the two-argument `startActivity(context, intent)` of `ExternalActivityCompatibilityLayer`, which is modelled.
- `PermissionAsker`, `PermissionAskerActivity`, `FunctionalInterfaces`, `JActivityResultEventListener` and the sample app are not part of this model.
