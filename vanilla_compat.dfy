/**
 * `VanillaActivityResultCompat`: a bridge for callers that are not activities of the bus's
 * own class. A `Builder` collects an intent factory, a table of result mappers and two
 * optional hooks, and launches a bridge activity that carries them as extras. The bridge
 * activity launches the real intent for a result under request code 1234. When that
 * result arrives, it maps the result, posts what comes out, runs the stopped hook and
 * finishes.
 */
module VanillaActivityResultCompat {
  import opened Wrappers
  import opened Platform

  /** `INTENT_REQUEST_CODE` */
  const IntentRequestCode: int := 1234

  /** `SerializableMapper<Context, Intent>`: builds the real intent, given the bridge activity as context. */
  type IntentFactory = ActivityId -> Intent

  /** The extras of the intent that launches the bridge activity. */
  datatype CompatRequest = CompatRequest(
    intentFactory: IntentFactory,
    resultMappers: map<int, ResultMapper>,
    onStarted: Option<ProcedureId>,
    onStopped: Option<ProcedureId>)

  /** The runtime exceptions `Builder.startActivity` throws, in the order it checks for them. */
  datatype BuilderError = MissingIntentFactory | MissingResultMappers

  /** What `Builder.startActivity` does with the builder's configuration: throw, or launch the
      bridge activity with this request. */
  function BuildRequest(intentFactory: Option<IntentFactory>, resultMappers: map<int, ResultMapper>,
                        onStarted: Option<ProcedureId>, onStopped: Option<ProcedureId>)
    : (r: Result<CompatRequest, BuilderError>)
    ensures r.Failure? && r.error == MissingIntentFactory <==> intentFactory.None?
    ensures r.Failure? && r.error == MissingResultMappers <==> intentFactory.Some? && |resultMappers| == 0
    ensures r.Success? <==> intentFactory.Some? && |resultMappers| != 0
    ensures r.Success? ==> r.value.intentFactory == intentFactory.value && r.value.resultMappers == resultMappers
    ensures r.Success? ==> r.value.onStarted == onStarted && r.value.onStopped == onStopped
  {
    if intentFactory.None? then Failure(MissingIntentFactory)
    else if |resultMappers| == 0 then Failure(MissingResultMappers)
    else Success(CompatRequest(intentFactory.value, resultMappers, onStarted, onStopped))
  }

  /** How a call of a hook ends. The hooks are the caller's code, so the model takes this as an input. */
  datatype HookOutcome = Returned | Threw

  /** Calling an optional hook: the effects of the call, and whether an exception escapes it. */
  function CallHook(hook: Option<ProcedureId>, outcome: HookOutcome): (seq<Effect>, bool)
  {
    if hook.Some? then ([Ran(hook.value)], outcome == Threw) else ([], false)
  }

  /** `try { hook?.invoke() } catch (ignored : Exception) {}`: the effects of the call, with any
      exception it throws dropped. */
  function RunHook(hook: Option<ProcedureId>, outcome: HookOutcome): seq<Effect>
  {
    CallHook(hook, outcome).0
  }

  /** A hook that throws lets the exception escape its call, but the surrounding `try` drops it, so
      the statement has the same effects however the hook ends. This follows from `RunHook` keeping
      only the call's effects; that the code after the hook runs is stated by the `finished` clause
      of `CompatActivity.OnActivityResult`, which holds for either outcome. */
  lemma HookFailureSwallowed(hook: Option<ProcedureId>)
    ensures CallHook(hook, Threw).1 <==> hook.Some?
    ensures !CallHook(hook, Returned).1
    ensures RunHook(hook, Threw) == RunHook(hook, Returned)
  {
  }

  /** What `onCreate` does: launch the factory's intent for a result, then run the started hook. */
  function CreateEffects(request: CompatRequest, self: ActivityId, startedOutcome: HookOutcome): (r: seq<Effect>)
    ensures |r| == (if request.onStarted.Some? then 2 else 1)
    ensures r[0] == LaunchedForResult(request.intentFactory(self), IntentRequestCode)
  {
    [LaunchedForResult(request.intentFactory(self), IntentRequestCode)] + RunHook(request.onStarted, startedOutcome)
  }

  /** What `onActivityResult` does, apart from finishing. */
  function ResultEffects(request: CompatRequest, requestCode: int, resultCode: int, data: Option<Intent>,
                         stoppedOutcome: HookOutcome): (r: seq<Effect>)
    ensures forall k :: 0 <= k < |r| ==> !r[k].Launched? && !r[k].LaunchedForResult?
  {
    if requestCode != IntentRequestCode then []
    else MapAndPost(request.resultMappers, resultCode, data) + RunHook(request.onStopped, stoppedOutcome)
  }

  /** Neither callback of the bridge depends on how its hook ends: a hook that throws leaves the
      launch and the post as they are when it returns. This follows from `HookFailureSwallowed`;
      that the bridge still finishes is stated by `CompatActivity.OnActivityResult`. */
  lemma HookOutcomeIrrelevant(request: CompatRequest, self: ActivityId, requestCode: int, resultCode: int,
                              data: Option<Intent>)
    ensures CreateEffects(request, self, Threw) == CreateEffects(request, self, Returned)
    ensures ResultEffects(request, requestCode, resultCode, data, Threw) ==
      ResultEffects(request, requestCode, resultCode, data, Returned)
  {
    HookFailureSwallowed(request.onStarted);
    HookFailureSwallowed(request.onStopped);
  }

  /** The bridge activity launches exactly one activity for a result, first, under request code 1234,
      and runs the started hook after it, if there is one. */
  lemma CreateLaunchesOnce(request: CompatRequest, self: ActivityId, startedOutcome: HookOutcome)
    ensures var r := CreateEffects(request, self, startedOutcome);
      r[0] == LaunchedForResult(request.intentFactory(self), IntentRequestCode) &&
      (forall k :: 1 <= k < |r| ==> r[k].Ran?) &&
      (request.onStarted.Some? <==> |r| == 2 && r[1] == Ran(request.onStarted.value)) &&
      PostsOf(r) == []
  {
    var r := CreateEffects(request, self, startedOutcome);
    PostsOfAppend([r[0]], RunHook(request.onStarted, startedOutcome));
    assert PostsOf([r[0]]) == PostsOf([]);
    if request.onStarted.Some? {
      assert PostsOf(RunHook(request.onStarted, startedOutcome)) == PostsOf([]);
    }
  }

  /** The bridge posts exactly one event for a result under request code 1234 exactly when its table
      has a mapper for the result code and that mapper yields non-null, and then it posts the
      mapped value; otherwise it posts nothing. A result under any other request
      code is ignored altogether. */
  lemma {:induction false} ResultPosts(request: CompatRequest, requestCode: int, resultCode: int, data: Option<Intent>,
                                       stoppedOutcome: HookOutcome)
    ensures PostsOf(ResultEffects(request, requestCode, resultCode, data, stoppedOutcome)) ==
      if requestCode == IntentRequestCode && resultCode in request.resultMappers &&
         Yield(request.resultMappers[resultCode], data).Some?
      then [Yield(request.resultMappers[resultCode], data).value] else []
    ensures requestCode != IntentRequestCode ==> ResultEffects(request, requestCode, resultCode, data, stoppedOutcome) == []
  {
    if requestCode == IntentRequestCode {
      var hook := RunHook(request.onStopped, stoppedOutcome);
      PostsOfAppend(MapAndPost(request.resultMappers, resultCode, data), hook);
      MapAndPostPostsIff(request.resultMappers, resultCode, data);
      if request.onStopped.Some? {
        assert PostsOf(hook) == PostsOf([]);
      }
    }
  }

  /** The stopped hook runs once per result under request code 1234, after the mapping and the post. */
  lemma StoppedHookLast(request: CompatRequest, resultCode: int, data: Option<Intent>, stoppedOutcome: HookOutcome)
    requires request.onStopped.Some?
    ensures var r := ResultEffects(request, IntentRequestCode, resultCode, data, stoppedOutcome);
      |r| >= 1 && r[|r| - 1] == Ran(request.onStopped.value) &&
      PostsOf(r[..|r| - 1]) == PostsOf(r)
  {
    var r := ResultEffects(request, IntentRequestCode, resultCode, data, stoppedOutcome);
    var m := MapAndPost(request.resultMappers, resultCode, data);
    assert r == m + [Ran(request.onStopped.value)];
    assert r[..|r| - 1] == m;
    PostsOfAppend(m, [Ran(request.onStopped.value)]);
    assert PostsOf([Ran(request.onStopped.value)]) == PostsOf([]);
  }

  /** `VanillaActivityResultCompat.Builder` */
  class Builder {
    var intentFactory: Option<IntentFactory>
    var onStarted: Option<ProcedureId>
    var onStopped: Option<ProcedureId>
    var resultMappers: map<int, ResultMapper>

    constructor ()
      ensures intentFactory.None? && onStarted.None? && onStopped.None? && resultMappers == map[]
    {
      intentFactory := None;
      onStarted := None;
      onStopped := None;
      resultMappers := map[];
    }

    method SetIntentFactory(factory: IntentFactory)
      modifies this`intentFactory
      ensures intentFactory == Some(factory)
    {
      intentFactory := Some(factory);
    }

    method SetOnIntentActivityStarted(listener: ProcedureId)
      modifies this`onStarted
      ensures onStarted == Some(listener)
    {
      onStarted := Some(listener);
    }

    method SetOnIntentActivityStopped(listener: ProcedureId)
      modifies this`onStopped
      ensures onStopped == Some(listener)
    {
      onStopped := Some(listener);
    }

    /** `addResultMapper`: install or replace the mapper for a result code. */
    method AddResultMapper(resultCode: int, mapper: Option<Intent> -> Option<Event>)
      modifies this`resultMappers
      ensures resultMappers == old(resultMappers)[resultCode := MapTo(mapper)]
    {
      resultMappers := resultMappers[resultCode := MapTo(mapper)];
    }

    /** `startActivity`: check the configuration and launch the bridge activity with it. */
    method StartActivity() returns (r: Result<CompatRequest, BuilderError>)
      ensures r == BuildRequest(intentFactory, resultMappers, onStarted, onStopped)
    {
      if intentFactory.None? {
        return Failure(MissingIntentFactory);
      }
      if |resultMappers| == 0 {
        return Failure(MissingResultMappers);
      }
      var request := CompatRequest(intentFactory.value, resultMappers, None, None);
      if onStarted.Some? {
        request := request.(onStarted := onStarted);
      }
      if onStopped.Some? {
        request := request.(onStopped := onStopped);
      }
      return Success(request);
    }
  }

  /** The bridge activity `VanillaActivityResultCompat`. */
  class CompatActivity {
    const id: ActivityId
    /** The extras read back in `onCreate`. */
    const request: CompatRequest
    var finished: bool
    ghost var effects: seq<Effect>

    /** `onCreate`; `startedOutcome` is how the started hook's call ends. */
    constructor (id: ActivityId, request: CompatRequest, startedOutcome: HookOutcome)
      ensures this.id == id && this.request == request && !finished
      ensures effects == CreateEffects(request, id, startedOutcome)
    {
      this.id := id;
      this.request := request;
      finished := false;
      var intent := request.intentFactory(id);
      effects := [LaunchedForResult(intent, IntentRequestCode)];
      var (hookEffects, thrown) := CallHook(request.onStarted, startedOutcome);
      // `catch (ignored : Exception) {}`: an exception the hook threw is dropped here.
      effects := effects + hookEffects;
    }

    /** `onActivityResult`: for request code 1234, map and post, run the stopped hook and finish;
        ignore any other request code. `stoppedOutcome` is how the stopped hook's call ends; the
        activity finishes either way. */
    method OnActivityResult(requestCode: int, resultCode: int, data: Option<Intent>, stoppedOutcome: HookOutcome)
      modifies this`effects, this`finished
      ensures effects == old(effects) + ResultEffects(request, requestCode, resultCode, data, stoppedOutcome)
      ensures finished == (old(finished) || requestCode == IntentRequestCode)
    {
      if requestCode == IntentRequestCode {
        if resultCode in request.resultMappers {
          var mapper := request.resultMappers[resultCode];
          effects := effects + Calls(mapper, data);
          var event := Yield(mapper, data);
          if event.Some? {
            effects := effects + [Posted(event.value)];
          }
        }
        var (hookEffects, thrown) := CallHook(request.onStopped, stoppedOutcome);
        // `catch (ignored : Exception) {}`: an exception the hook threw is dropped here.
        effects := effects + hookEffects;
        finished := true;
      }
    }
  }
}
