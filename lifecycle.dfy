/** The pipeline lifecycle: how one `init_pipeline` call fills the process-wide
    `pipeline` slot, with its ordered fallback between two construction strategies,
    and what a whole sequence of such calls does to the slot. The class that holds
    the slot and runs these steps in place is `Handler.Worker`. */
module PipelineLifecycle {
  import opened PyValues

  /** A constructed backend pipeline; `instance` tells one object from another. */
  datatype Handle = Handle(instance: nat)

  /** The construction strategies, in the order they are tried. */
  datatype Strategy =
    | Service         // import ACEStepService from acestep.api_server and call it
    | DirectPipeline  // import ACEStepPipeline from acestep.acestep_v15_pipeline and call it

  const Order: seq<Strategy> := [Service, DirectPipeline]

  /** What each strategy (its import and its constructor call together) would do
      if it were attempted during one `init_pipeline` call. */
  datatype Call = Call(service: Outcome<Handle>, direct: Outcome<Handle>)

  function OutcomeOf(call: Call, s: Strategy): Outcome<Handle> {
    match s
    case Service => call.service
    case DirectPipeline => call.direct
  }

  predicate RaisesImportError(o: Outcome<Handle>) {
    o.Raise? && o.error.cls == ImportError
  }

  /** The strategies attempted, in order, and the outcome of the attempt. */
  datatype Construction = Construction(result: Outcome<Handle>, tried: seq<Strategy>)

  /** One construction: strategies are tried in `Order`; a later one is tried only
      when every earlier one raised ImportError; the first that does not raise
      ImportError (or the last one) decides the result, and any error it raises is
      re-raised unchanged. */
  function Construct(call: Call): (c: Construction)
    ensures 0 < |c.tried| <= |Order| && c.tried == Order[..|c.tried|]
    ensures forall k :: 0 <= k < |c.tried| - 1 ==> RaisesImportError(OutcomeOf(call, c.tried[k]))
    ensures c.result == OutcomeOf(call, c.tried[|c.tried| - 1])
    ensures |c.tried| < |Order| ==> !RaisesImportError(c.result)
  {
    match call.service
    case Ok(h) => Construction(Ok(h), [Service])
    case Raise(e) =>
      if e.cls == ImportError then Construction(call.direct, [Service, DirectPipeline])
      else Construction(Raise(e), [Service])
  }

  /** The slot after one `init_pipeline` call, what the call returned (or raised)
      and the strategies it attempted. */
  datatype Step = Step(slot: Option<Handle>, result: Outcome<Handle>, tried: seq<Strategy>)

  /** One `init_pipeline` call: a filled slot is returned as it is and nothing is
      constructed; an empty one is filled exactly when construction succeeds. */
  function InitStep(slot: Option<Handle>, call: Call): (s: Step)
    ensures slot.Some? ==> s == Step(slot, Ok(slot.value), [])
    ensures slot.None? ==> s.result == Construct(call).result && s.tried == Construct(call).tried
    ensures s.slot.Some? <==> s.result.Ok?
    ensures s.result.Ok? ==> s.slot == Some(s.result.value)
  {
    if slot.Some? then Step(slot, Ok(slot.value), [])
    else
      var c := Construct(call);
      match c.result
      case Ok(h) => Step(Some(h), c.result, c.tried)
      case Raise(_) => Step(None, c.result, c.tried)
  }

  /** The effect of a sequence of `init_pipeline` calls on one process: the final
      slot, each call's result, every strategy attempted, and how many calls filled
      an empty slot. */
  datatype Trace = Trace(slot: Option<Handle>, results: seq<Outcome<Handle>>,
                         tried: seq<Strategy>, builds: nat)

  function Run(slot: Option<Handle>, calls: seq<Call>): (t: Trace)
    ensures |t.results| == |calls|
    ensures slot.Some? ==> t.slot == slot
    decreases |calls|
  {
    if |calls| == 0 then Trace(slot, [], [], 0)
    else
      var s := InitStep(slot, calls[0]);
      var rest := Run(s.slot, calls[1..]);
      Trace(rest.slot, [s.result] + rest.results, s.tried + rest.tried,
            (if slot.None? && s.slot.Some? then 1 else 0) + rest.builds)
  }

  /** Once the slot holds a handle, every later call returns that handle and no
      strategy is attempted again. */
  lemma {:induction false} CachedHandleIsReturned(h: Handle, calls: seq<Call>)
    ensures var t := Run(Some(h), calls);
      t.slot == Some(h) && t.tried == [] && t.builds == 0 &&
      forall i :: 0 <= i < |t.results| ==> t.results[i] == Ok(h)
    decreases |calls|
  {
    if |calls| > 0 {
      CachedHandleIsReturned(h, calls[1..]);
    }
  }

  /** Over any sequence of calls, every call that returns a handle returns the same
      one; the slot is filled at most once, and exactly once when some call
      succeeds on an initially empty slot; at the end the slot holds a handle exactly
      when it started filled or some call succeeded, and it is the handle every
      successful call returned. */
  lemma {:induction false} OneHandlePerProcess(slot: Option<Handle>, calls: seq<Call>)
    ensures var t := Run(slot, calls);
      (forall i, j ::
         0 <= i < |t.results| && 0 <= j < |t.results| && t.results[i].Ok? && t.results[j].Ok? ==>
           t.results[i] == t.results[j]) &&
      (slot.Some? ==> forall i :: 0 <= i < |t.results| ==> t.results[i] == Ok(slot.value)) &&
      t.builds <= 1 &&
      (t.builds == 1 <==> slot.None? && exists i :: 0 <= i < |t.results| && t.results[i].Ok?) &&
      (slot.None? ==> (t.slot.Some? <==> exists i :: 0 <= i < |t.results| && t.results[i].Ok?)) &&
      (forall i :: 0 <= i < |t.results| && t.results[i].Ok? ==> t.slot == Some(t.results[i].value))
    decreases |calls|
  {
    var t := Run(slot, calls);
    if |calls| == 0 {
    } else if slot.Some? {
      CachedHandleIsReturned(slot.value, calls);
    } else {
      var s := InitStep(slot, calls[0]);
      var rest := Run(s.slot, calls[1..]);
      assert t.results == [s.result] + rest.results;
      if s.result.Ok? {
        CachedHandleIsReturned(s.result.value, calls[1..]);
        assert forall i :: 0 <= i < |t.results| ==> t.results[i] == s.result;
        assert t.results[0].Ok?;
      } else {
        OneHandlePerProcess(s.slot, calls[1..]);
        assert forall i :: 0 < i < |t.results| ==> t.results[i] == rest.results[i - 1];
        if rest.builds == 1 {
          var i :| 0 <= i < |rest.results| && rest.results[i].Ok?;
          assert t.results[i + 1].Ok?;
        }
      }
    }
  }

  /** A failed construction leaves no trace: the next call starts again from the
      first strategy, exactly as if the failed call had never happened. */
  lemma FailureRetries(call: Call, next: Call)
    requires InitStep(None, call).result.Raise?
    ensures InitStep(None, call).slot == None
    ensures InitStep(InitStep(None, call).slot, next) == InitStep(None, next)
    ensures InitStep(None, next).tried[0] == Service
  {
  }
}
