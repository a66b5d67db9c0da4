/**
 * `ExternalActivityCompatibilityLayer`: a table from result code to result mapper, and a
 * `startActivity` that arms the calling activity's parse queue before launching an activity
 * that knows nothing of the bus.
 */
module ExternalActivityCompatibilityLayer {
  import opened Wrappers
  import opened Platform
  import opened AppCompatActivityWithActivityResultEventBus

  /** The runtime exceptions `startActivity` throws, in the order it checks for them. */
  datatype StartError = MissingIntent | MissingContext | MissingResultMappers | InvalidContext

  /** Which exception `startActivity` throws for its arguments and table, if any. */
  function StartFailure(context: Option<Context>, intent: Option<Intent>, resultMappers: map<int, ResultMapper>)
    : (r: Option<StartError>)
    ensures r == Some(MissingIntent) <==> intent.None?
    ensures r == Some(MissingContext) <==> intent.Some? && context.None?
    ensures r == Some(MissingResultMappers) <==> intent.Some? && context.Some? && |resultMappers| == 0
    ensures r == Some(InvalidContext) <==>
      intent.Some? && context.Some? && |resultMappers| != 0 && FindFrom(context.value).Failure?
    ensures r.None? <==> ActivityOf(context) != {} && intent.Some? && |resultMappers| != 0
  {
    if intent.None? then Some(MissingIntent)
    else if context.None? then Some(MissingContext)
    else if |resultMappers| == 0 then Some(MissingResultMappers)
    else if FindFrom(context.value).Failure? then Some(InvalidContext)
    else None
  }

  class CompatibilityLayer {
    /** `resultMappers`: at most one mapper per result code. */
    var resultMappers: map<int, ResultMapper>

    constructor ()
      ensures |resultMappers| == 0
    {
      resultMappers := map[];
    }

    /** `addResultMapper`: install or replace the mapper for a result code. */
    method AddResultMapper(resultCode: int, mapper: Option<Intent> -> Option<Event>)
      modifies this
      ensures resultMappers == old(resultMappers)[resultCode := MapTo(mapper)]
    {
      resultMappers := resultMappers[resultCode := MapTo(mapper)];
    }

    /** `doOnResult`: install or replace, for a result code, a mapper that hands the data to a
        consumer and yields nothing to post. */
    method DoOnResult(resultCode: int, consumer: ConsumerId)
      modifies this
      ensures resultMappers == old(resultMappers)[resultCode := ConsumeThenNull(consumer)]
    {
      resultMappers := resultMappers[resultCode := ConsumeThenNull(consumer)];
    }

    /** `startActivity`. On an exception nothing changes. Otherwise the activity the context
        resolves to gets one more parser, over this table, at the back of its parse queue,
        and launches the intent. */
    method StartActivity(context: Option<Context>, intent: Option<Intent>) returns (error: Option<StartError>)
      requires forall a | a in ActivityOf(context) :: allocated(a)
      modifies ActivityOf(context)
      ensures error == StartFailure(context, intent, resultMappers)
      ensures error.Some? ==> unchanged(ActivityOf(context))
      ensures error.None? ==>
        var a := FindFrom(context.value).value;
        a.parseQueue == old(a.parseQueue) + [ParseWith(resultMappers)] &&
        a.effects == old(a.effects) + [Launched(intent.value)] &&
        a.eventListeners == old(a.eventListeners) &&
        a.afterResultQueue == old(a.afterResultQueue) &&
        a.permissionsQueue == old(a.permissionsQueue)
    {
      if intent.None? {
        return Some(MissingIntent);
      }
      if context.None? {
        return Some(MissingContext);
      }
      if |resultMappers| == 0 {
        return Some(MissingResultMappers);
      }
      var found := FindFrom(context.value);
      if found.Failure? {
        return Some(InvalidContext);
      }
      var activity := found.value;
      activity.parseQueue := activity.parseQueue + [ParseWith(resultMappers)];
      activity.StartActivity(intent);
      return None;
    }
  }

  /** What a successful `startActivity` leads to when the result arrives: the activity's drained
      parse queue posts what the parsers queued before it map the result to, then what this
      layer's table maps it to; a code registered with `doOnResult` adds nothing. */
  lemma {:induction false} ArmedQueuePosts(q: seq<ResultParser>, resultMappers: map<int, ResultMapper>, result: ActivityResult)
    ensures PostsOf(ParseAll(q + [ParseWith(resultMappers)], result)) ==
      ParsedEvents(q, result) +
      (if result.resultCode in resultMappers && Yield(resultMappers[result.resultCode], result.data).Some?
       then [Yield(resultMappers[result.resultCode], result.data).value] else [])
    ensures result.resultCode in resultMappers && resultMappers[result.resultCode].ConsumeThenNull? ==>
      PostsOf(ParseAll(q + [ParseWith(resultMappers)], result)) == ParsedEvents(q, result)
  {
    var p := ParseWith(resultMappers);
    ParseAllAppend(q, [p], result);
    ParseAllPosts(q, result);
    ParseAllPosts([p], result);
    PostsOfAppend(ParseAll(q, result), ParseAll([p], result));
    assert ParsedEvents([p], result) == ParsedEvent(p, result) + ParsedEvents([], result);
  }
}
