# ACE-Step serverless job handler, modelled in Dafny

This project models the job handler of the ACE-Step 1.5 serverless worker
(`handler.py`). For each job, the handler does the following:

- It reads `tags`, `lyrics` and `duration` from the job's `input` mapping and fills in defaults.
- It builds the generation prompt.
- It gets the process-wide generation pipeline. On first use it builds the pipeline, first from
  `ACEStepService` and, if importing or constructing it raises `ImportError`, from
  `ACEStepPipeline`, and caches it.
- It calls `generate` and takes the audio out of whichever shape the result has.
- It writes that audio as a 44100 Hz WAV file, base64-encodes it and returns
  `{"audio_base64", "duration"}`.
- Any `Exception` raised on the way becomes `{"error": str(e)}`.

Modules, one per component:

- `PyValues` (`values.dfy`): the Python values the handler sees. It holds the `Arg` type
  (strings and integers exactly; any other object through its type name, its `str()` text and
  its truthiness), the exception classes the `except` clauses distinguish, and
  `Outcome` (returned or raised).
- `JobParams` (`params.dfy`): parameter defaults and prompt construction. `Get` is the
  dict's `.get(key, default)` used at handler.py:51-54: a present value, even a falsy one,
  is returned unchanged, and otherwise the default.
- `PipelineLifecycle` (`lifecycle.dfy`): the specification of one `init_pipeline` call (`Construct`,
  `InitStep`) and of a sequence of calls in one process (`Run`). It also holds the singleton
  lemmas.
- `ResultShape` (`result_shape.dfy`): the attribute / dict key / raw value precedence.
- `Handler` (`handler.dfy`): the collaborators as a `Backend` value, the reply as a function
  (`Reply`) and the `Worker` class. `Worker` holds the module-global `pipeline` slot. Its
  methods `InitPipeline` and `HandleJob` update that slot in place and are proved against
  `InitStep` and `Reply`.

Several external collaborators are not modelled. Each one becomes a field of `Backend`, given
to the handler:

- the two pipeline constructors (import plus call), as one outcome each per `init_pipeline`
  call;
- `pipe.generate`;
- the WAV writer;
- base64 encoding.

Their results are arbitrary. They may raise, except base64 encoding of bytes, which cannot.

What the handler as written does, and therefore what the model does:

- There is no clipping, normalisation or 16-bit quantisation. The resolved audio goes straight
  to the WAV writer.
- There is no seed, inference step count or guidance scale. Only `prompt` and `duration` reach
  `generate`.
- The success reply has exactly `audio_base64` and `duration`. It has no `sample_rate` and no
  `filename`.
- A pipeline construction failure is a per-job `{"error"}` reply, and the next job tries again.
  It is not a fatal startup error.
- `except Exception` does not catch `KeyboardInterrupt`, `SystemExit` or `GeneratorExit`. These
  escape the handler (`BaseExceptionOnly`), so error containment covers `Exception` subclasses
  only.
- An `input` that is not a mapping makes `.get` raise `AttributeError`. That error is reported
  as an error reply.

## Model

| member | source | states |
|---|---|---|
| JobParams.BuildPrompt | handler.py:56 | With falsy tags, the prompt is the lyrics value itself. With truthy tags, it is a string that splits into the tags' text, the blank-line separator and the lyrics' text. |
| JobParams.PromptOfStrings | handler.py:56 | For string fields, the prompt equals the lyrics exactly when the tags are empty. Non-empty tags give `tags + "\n\n" + lyrics`. Both fields empty give `""`. |
| JobParams.ResolveParams | handler.py:51-56 | Resolution raises, with AttributeError, exactly when `input` is present but not a mapping. A present `duration` is used unchanged; otherwise it is 30. |
| JobParams.MissingInputIsEmptyMapping | handler.py:51-54 | A job without `input` resolves like an empty mapping: empty prompt, duration 30. |
| JobParams.FieldDefaults | handler.py:51-56 | Missing tags give the lyrics, or `""`, as the prompt. Missing lyrics default to `""`. Present values reach the prompt unchanged. |
| JobParams.WarmAcousticJob | handler.py:51-56 | The job `warm, acoustic` / `[verse]\nhello` / 30 resolves to the prompt `warm, acoustic\n\n[verse]\nhello` and duration 30. |
| PipelineLifecycle.Construct | handler.py:30-45 | Strategies are tried in the order service, then direct pipeline. A later one is tried only if every earlier one raised ImportError. The result is the outcome of the last strategy tried, which is not an ImportError unless no strategy is left. |
| PipelineLifecycle.InitStep | handler.py:26-46 | A filled slot is returned unchanged with no construction. An empty slot gets the construction's result. Afterwards the slot is filled exactly when the call returned a handle, and holds that handle. |
| PipelineLifecycle.Run | handler.py:26-46 | Over a sequence of calls there is one result per call, and a filled slot stays filled with the same handle. |
| PipelineLifecycle.CachedHandleIsReturned | handler.py:26-28 | Once the slot holds a handle, every later call returns it and attempts no strategy. |
| PipelineLifecycle.OneHandlePerProcess | handler.py:24-46 | Every call that returns a handle returns the same one. The slot is filled at most once, and exactly once when some call succeeds on an initially empty slot. At the end, a slot that started empty is filled exactly when some call succeeded, and it holds the handle every successful call returned. |
| PipelineLifecycle.FailureRetries | handler.py:42-45 | A failed construction leaves the slot empty. The next call behaves as if the failed one never happened and starts again from the first strategy. |
| ResultShape.ResolveAudio | handler.py:65-71 | The audio is the first of the ordered candidates: the `audio` attribute, then the dict key `audio`, then the result itself. |
| ResultShape.AttributeBeatsKeyBeatsRaw | handler.py:65-71 | The attribute wins over a differing dict key, and the key wins over the raw value. Without either, the raw value is used. |
| Handler.SuccessResponse | handler.py:81-82 | The success dict has exactly the keys `audio_base64` and `duration`, holding the encoded text and the duration given. |
| Handler.ErrorResponse | handler.py:87 | The error dict has exactly the key `error`, holding the message. |
| Handler.JobBody | handler.py:50-82 | The stages run in order: resolution, pipeline init, generation, WAV writing. The first stage that raises ends the body with its exception, and later stages are not consulted. `generate` gets the resolved prompt and duration, and the WAV writer gets 44100 and the resolved audio. When every stage returns, the result is the success dict holding `b64encode` of the WAV bytes and the resolved duration. |
| Handler.Reply | handler.py:48-87 | Only a non-`Exception` escapes the handler, and it escapes unchanged. A returned dict has exactly the keys `audio_base64` and `duration`, or exactly `error`. |
| Handler.JobSucceeds | handler.py:60-82 | When every stage returns, the reply is the base64 text of the WAV bytes written at 44100 Hz from the resolved audio, with the resolved duration. |
| Handler.SuccessMeansEveryStageReturned | handler.py:60-82 | A success reply implies that resolution, pipeline init, generation and WAV writing all returned. It carries exactly their results. |
| Handler.StageFailuresAreReported | handler.py:50-87 | An Exception from resolution, pipeline init, generation or WAV writing becomes `{"error": str(e)}` with that exception's message. |
| Handler.Worker.constructor | handler.py:24 | A new process starts with an empty pipeline slot and no construction attempts. |
| Handler.Worker.InitPipeline | handler.py:26-46 | The new slot, the result and the strategies appended to the attempt log are those of `InitStep`. A filled slot is left as it is. A raise leaves the slot empty. |
| Handler.Worker.HandleJob | handler.py:48-87 | The reply is `Reply` for what this job's `init_pipeline` call returned. The slot is what that call left, or unchanged if resolution raised before it. No `Exception` escapes. |

## Left out

- Import bootstrap and `sys.exit(1)` on import failure (handler.py:11-22): process start-up, not job logic.
- `runpod.serverless.start` (handler.py:89-90): the external dispatch runtime.
- `print` and `traceback.print_exc` logging: the messages are not modelled, and neither is a failure of a logging call itself (for example `BrokenPipeError` or `ValueError` on a closed stdout). Two consequences are therefore not captured:
  - If the print at handler.py:36 or handler.py:41 raised, `init_pipeline` would raise with the slot already filled. `InitStep` and `Worker.InitPipeline` promise that a raise leaves the slot empty, so they rule this state out. The next call would then return the cached handle.
  - The print at handler.py:49 runs before the `try`. If it raised, the error would escape `handler` even when it is an `Exception`, which the containment contracts of `Reply` and `Worker.HandleJob` do not allow for.
- The `torch.is_tensor` check and `.cpu().numpy()` conversion (handler.py:73-74): audio is an opaque `Payload`. The resolved payload goes to the WAV writer as it is, and a failure of that conversion is not modelled separately.
- The WAV container format and the base64 alphabet: `writeWav` and `b64encode` are arbitrary functions supplied by `Backend`.
- Handler.Worker.InitPipeline: the slot update is a plain check-then-set with no lock, and the model is sequential. Concurrent first calls, and constructing exactly once under them, are not captured.
- `job` itself is taken to be a mapping, as the dispatch runtime delivers it. Only its `input` key is modelled.
- Exceptions raised by `str()` on an argument, or by an `audio` property getter, are not modelled. An object's text is a fixed value.
