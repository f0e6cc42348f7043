/** The job handler: resolve parameters, get the pipeline, generate, pick out the
    audio, write it as WAV, base64-encode it, and turn every Exception raised on
    the way into an error response. `Worker` holds the process-wide pipeline slot. */
module Handler {
  import opened PyValues
  import opened JobParams
  import opened PipelineLifecycle
  import opened ResultShape

  newtype Byte = b: int | 0 <= b < 256

  type Bytes = seq<Byte>

  /** The sample rate every WAV file is written with. */
  const SampleRate: int := 44100

  /** The collaborators a job depends on and whose code is not part of this model. */
  datatype Backend = Backend(
    construct: Call,                                     // the two construction strategies
    generate: (Handle, Arg, Arg) -> Outcome<Generated>,  // pipe.generate(prompt=..., duration=...)
    writeWav: (int, Payload) -> Outcome<Bytes>,          // wavfile.write into a BytesIO, then getvalue()
    b64encode: Bytes -> string)                          // base64.b64encode(...).decode("utf-8")

  /** The dict the handler returns to the dispatch runtime. */
  type Response = map<string, Arg>

  /** The success dict at the end of the `try`: exactly these two keys. */
  function SuccessResponse(audioBase64: string, duration: Arg): (r: Response)
    ensures r.Keys == {"audio_base64", "duration"}
    ensures r["audio_base64"] == Str(audioBase64) && r["duration"] == duration
  {
    map["audio_base64" := Str(audioBase64), "duration" := duration]
  }

  /** The dict the `except` clause returns: only the error message. */
  function ErrorResponse(message: string): (r: Response)
    ensures r.Keys == {"error"} && r["error"] == Str(message)
  {
    map["error" := Str(message)]
  }

  /** The body of the handler's `try`, given what `init_pipeline` returned or raised
      (consulted only once the parameters are resolved, as the call comes after them).
      Stages run in order and the first that raises ends the body with its exception;
      once resolution and init return, `generate` gets the prompt and duration, the
      WAV writer gets 44100 and the resolved audio, and the success dict carries the
      base64 text of those WAV bytes and the resolved duration. */
  function JobBody(job: Job, init: Outcome<Handle>, b: Backend): (r: Outcome<Response>)
    ensures ResolveParams(job).Raise? ==> r == Raise(ResolveParams(job).error)
    ensures ResolveParams(job).Ok? && init.Raise? ==> r == Raise(init.error)
    ensures r.Ok? ==>
      ResolveParams(job).Ok? && init.Ok? &&
      r.value.Keys == {"audio_base64", "duration"} &&
      r.value["duration"] == ResolveParams(job).value.duration
    ensures ResolveParams(job).Ok? && init.Ok? ==>
      var req := ResolveParams(job).value;
      var gen := b.generate(init.value, req.prompt, req.duration);
      (gen.Raise? ==> r == Raise(gen.error)) &&
      (gen.Ok? ==>
         var wav := b.writeWav(SampleRate, ResolveAudio(gen.value));
         (wav.Raise? ==> r == Raise(wav.error)) &&
         (wav.Ok? ==> r == Ok(SuccessResponse(b.b64encode(wav.value), req.duration))))
  {
    match ResolveParams(job)
    case Raise(e) => Raise(e)
    case Ok(req) =>
      match init
      case Raise(e) => Raise(e)
      case Ok(pipe) =>
        match b.generate(pipe, req.prompt, req.duration)
        case Raise(e) => Raise(e)
        case Ok(result) =>
          match b.writeWav(SampleRate, ResolveAudio(result))
          case Raise(e) => Raise(e)
          case Ok(wav) => Ok(SuccessResponse(b.b64encode(wav), req.duration))
  }

  /** What the handler hands back: the body's response, or `{"error": str(e)}` for an
      Exception it raised. Only what `except Exception` cannot catch escapes, and it
      escapes unchanged; a returned dict has exactly the success keys or exactly the
      error key. */
  function Reply(job: Job, init: Outcome<Handle>, b: Backend): (r: Outcome<Response>)
    ensures r.Raise? ==> !r.error.IsExceptionSubclass()
    ensures JobBody(job, init, b).Raise? && !JobBody(job, init, b).error.IsExceptionSubclass() ==>
      r == JobBody(job, init, b)
    ensures r.Ok? ==> r.value.Keys == {"audio_base64", "duration"} || r.value.Keys == {"error"}
  {
    var body := JobBody(job, init, b);
    if body.Raise? && body.error.IsExceptionSubclass() then Ok(ErrorResponse(body.error.message))
    else body
  }

  /** When every stage returns, the reply is the base64 text of the WAV bytes written
      at 44100 Hz from the resolved audio, together with the resolved duration. */
  lemma JobSucceeds(job: Job, pipe: Handle, b: Backend, result: Generated, wav: Bytes)
    requires ResolveParams(job).Ok?
    requires b.generate(pipe, ResolveParams(job).value.prompt, ResolveParams(job).value.duration) == Ok(result)
    requires b.writeWav(SampleRate, ResolveAudio(result)) == Ok(wav)
    ensures Reply(job, Ok(pipe), b) == Ok(SuccessResponse(b.b64encode(wav), ResolveParams(job).value.duration))
  {
  }

  /** Conversely, a success reply only comes from a run in which every stage returned,
      and it carries exactly those stages' results. */
  lemma SuccessMeansEveryStageReturned(job: Job, init: Outcome<Handle>, b: Backend, resp: Response)
    requires Reply(job, init, b) == Ok(resp) && "error" !in resp
    ensures resp.Keys == {"audio_base64", "duration"}
    ensures ResolveParams(job).Ok? && init.Ok?
    ensures var req := ResolveParams(job).value;
      var gen := b.generate(init.value, req.prompt, req.duration);
      gen.Ok? && b.writeWav(SampleRate, ResolveAudio(gen.value)).Ok? &&
      resp == SuccessResponse(b.b64encode(b.writeWav(SampleRate, ResolveAudio(gen.value)).value),
                              req.duration)
  {
  }

  /** Each stage's Exception, pipeline construction included, becomes
      `{"error": str(e)}` and is not raised out of the handler. */
  lemma StageFailuresAreReported(job: Job, init: Outcome<Handle>, b: Backend)
    ensures ResolveParams(job).Raise? ==>
      Reply(job, init, b) == Ok(ErrorResponse(ResolveParams(job).error.message))
    ensures ResolveParams(job).Ok? && init.Raise? && init.error.IsExceptionSubclass() ==>
      Reply(job, init, b) == Ok(ErrorResponse(init.error.message))
    ensures ResolveParams(job).Ok? && init.Ok? ==>
      var req := ResolveParams(job).value;
      var gen := b.generate(init.value, req.prompt, req.duration);
      (gen.Raise? && gen.error.IsExceptionSubclass() ==>
         Reply(job, init, b) == Ok(ErrorResponse(gen.error.message))) &&
      (gen.Ok? ==>
         var wav := b.writeWav(SampleRate, ResolveAudio(gen.value));
         wav.Raise? && wav.error.IsExceptionSubclass() ==>
           Reply(job, init, b) == Ok(ErrorResponse(wav.error.message)))
  {
  }

  /** A process running the handler: the module-global pipeline slot and a record
      of every construction strategy it has attempted. */
  class Worker {
    var pipeline: Option<Handle>
    ghost var attempts: seq<Strategy>

    /** Module load: `pipeline = None`. */
    constructor ()
      ensures pipeline == None && attempts == []
    {
      pipeline := None;
      attempts := [];
    }

    /** `init_pipeline`: return the cached handle, or construct one by the ordered
        fallback and cache it; a failed construction re-raises and caches nothing. */
    method InitPipeline(call: Call) returns (r: Outcome<Handle>)
      modifies this
      ensures var s := InitStep(old(pipeline), call);
        pipeline == s.slot && r == s.result && attempts == old(attempts) + s.tried
      ensures old(pipeline).Some? ==>
        pipeline == old(pipeline) && r == Ok(old(pipeline).value) && attempts == old(attempts)
      ensures r.Raise? ==> pipeline == None
    {
      if pipeline.None? {
        attempts := attempts + [Service];
        match call.service
        case Ok(h) =>
          pipeline := Some(h);
        case Raise(e) =>
          if e.cls == ImportError {
            attempts := attempts + [DirectPipeline];
            match call.direct
            case Ok(h) =>
              pipeline := Some(h);
            case Raise(e2) =>
              r := Raise(e2);
              return;
          } else {
            r := Raise(e);
            return;
          }
      }
      r := Ok(pipeline.value);
    }

    /** `handler(job)`: the pipeline is initialised only after the parameters are
        resolved, and whatever the job does, the slot afterwards is what that one
        `init_pipeline` call left. */
    method HandleJob(job: Job, b: Backend) returns (r: Outcome<Response>)
      modifies this
      ensures var s := InitStep(old(pipeline), b.construct);
        r == Reply(job, s.result, b) &&
        (ResolveParams(job).Ok? ==> pipeline == s.slot && attempts == old(attempts) + s.tried) &&
        (ResolveParams(job).Raise? ==> pipeline == old(pipeline) && attempts == old(attempts))
      ensures r.Raise? ==> !r.error.IsExceptionSubclass()
    {
      var body: Outcome<Response>;
      var req := ResolveParams(job);
      if req.Raise? {
        body := Raise(req.error);
      } else {
        var pipe := InitPipeline(b.construct);
        if pipe.Raise? {
          body := Raise(pipe.error);
        } else {
          var result := b.generate(pipe.value, req.value.prompt, req.value.duration);
          if result.Raise? {
            body := Raise(result.error);
          } else {
            var wav := b.writeWav(SampleRate, ResolveAudio(result.value));
            if wav.Raise? {
              body := Raise(wav.error);
            } else {
              body := Ok(SuccessResponse(b.b64encode(wav.value), req.value.duration));
            }
          }
        }
      }
      if body.Raise? && body.error.IsExceptionSubclass() {
        r := Ok(ErrorResponse(body.error.message));
      } else {
        r := body;
      }
    }
  }
}
