/**
 * `edit_single_image`, `edit_dual_image` and `submit_job`: upload the input image(s),
 * build the job input record, submit it and wait for the job.
 *
 * Each run is driven by an environment value: the answers of the existence checks, the
 * clock reading the upload timestamp comes from, whether the store accepts each upload,
 * the `id` field of the submission response, and the poller's clock start and trace.
 */
module Editing {
  import opened Wrappers
  import opened Text
  import opened Storage
  import opened Poller
  import opened Results

  /** Step count that lightning mode forces. */
  const LightningSteps := 4

  /** The generation parameters a caller passes; `cfg` is carried through untouched. */
  datatype Params = Params(prompt: string, seed: int, width: int, height: int, steps: int,
                           cfg: real, negativePrompt: string, useLightning: bool)

  /** The keyword defaults of `edit_single_image` and `edit_dual_image`. */
  function DefaultParams(prompt: string): Params {
    Params(prompt, 12345, 1024, 1024, 40, 4.0, " ", false)
  }

  /** The `input` object posted to the job-creation endpoint. */
  datatype JobInput = JobInput(imagePath: string, imagePath2: Option<string>, prompt: string, seed: int,
                               width: int, height: int, steps: int, cfg: real, negativePrompt: string)

  /** The step count submitted: 4 in lightning mode, whatever was asked for; else as given. */
  function SubmittedSteps(p: Params): (steps: int)
    ensures p.useLightning ==> steps == LightningSteps
    ensures !p.useLightning ==> steps == p.steps
  {
    if p.useLightning then LightningSteps else p.steps
  }

  predicate CarriesParams(input: JobInput, p: Params) {
    && input.prompt == p.prompt
    && input.seed == p.seed
    && input.width == p.width
    && input.height == p.height
    && input.steps == SubmittedSteps(p)
    && input.cfg == p.cfg
    && input.negativePrompt == p.negativePrompt
  }

  function SingleInput(imageRef: string, p: Params): (input: JobInput)
    ensures input.imagePath == imageRef && input.imagePath2 == None
    ensures CarriesParams(input, p)
  {
    JobInput(imageRef, None, p.prompt, p.seed, p.width, p.height, SubmittedSteps(p), p.cfg, p.negativePrompt)
  }

  function DualInput(donorRef: string, canvasRef: string, p: Params): (input: JobInput)
    ensures input.imagePath == donorRef && input.imagePath2 == Some(canvasRef)
    ensures CarriesParams(input, p)
  {
    JobInput(donorRef, Some(canvasRef), p.prompt, p.seed, p.width, p.height, SubmittedSteps(p), p.cfg, p.negativePrompt)
  }

  /** In lightning mode the submitted input does not depend on the requested step count. */
  lemma LightningIgnoresRequestedSteps(donorRef: string, canvasRef: string, p: Params, steps: int)
    requires p.useLightning
    ensures SingleInput(donorRef, p.(steps := steps)) == SingleInput(donorRef, p)
    ensures DualInput(donorRef, canvasRef, p.(steps := steps)) == DualInput(donorRef, canvasRef, p)
    ensures SingleInput(donorRef, p).steps == 4
  {
  }

  /** With the keyword defaults, a job asks for a 1024x1024 image in 40 steps, or 4 with lightning on. */
  lemma DefaultInputs(imageRef: string, canvasRef: string, prompt: string)
    ensures var input := SingleInput(imageRef, DefaultParams(prompt));
      && input.seed == 12345 && input.width == 1024 && input.height == 1024
      && input.steps == 40 && input.cfg == 4.0 && input.negativePrompt == " "
    ensures DualInput(imageRef, canvasRef, DefaultParams(prompt)).steps == 40
    ensures SingleInput(imageRef, DefaultParams(prompt).(useLightning := true)).steps == LightningSteps
    ensures DualInput(imageRef, canvasRef, DefaultParams(prompt).(useLightning := true)).steps == LightningSteps
  {
  }

  /**
   * `submit_job`: `idField` is the response's `id` field (None when the request failed, the
   * HTTP status was an error or the field is missing). An empty id counts as missing.
   */
  function SubmitJob(idField: Option<string>): (jobId: Option<string>)
    ensures jobId.Some? <==> idField.Some? && idField.value != ""
    ensures jobId.Some? ==> jobId == idField
  {
    if idField.Some? && idField.value != "" then idField else None
  }

  /** Python's `int(x)` on a float: truncation toward zero. */
  function Truncate(x: real): (n: int)
    ensures x >= 0.0 ==> n >= 0 && n as real <= x < n as real + 1.0
    ensures x < 0.0 ==> n <= 0 && n as real - 1.0 < x <= n as real
  {
    if x >= 0.0 then x.Floor else -((-x).Floor)
  }

  /**
   * The tail shared by both edits: submit the input, give up if no job id came back, and
   * otherwise wait for the job with the defaults of `wait_for_completion`.
   */
  method SubmitAndWait(idField: Option<string>, pollStart: real, events: seq<Event>) returns (r: EditResult)
    requires Stops(pollStart, DefaultMaxWaitTime, events)
    ensures SubmitJob(idField) == None ==> r == EditError("Job submission failed")
    ensures SubmitJob(idField).Some? ==> r == Job(Poll(SubmitJob(idField).value, pollStart, DefaultMaxWaitTime, events))
  {
    var jobId := SubmitJob(idField);
    if jobId == None {
      return EditError("Job submission failed");
    }
    var outcome, _, _ := WaitForCompletion(jobId.value, DefaultCheckInterval, DefaultMaxWaitTime, pollStart, events);
    r := Job(outcome.result);
  }

  datatype SingleEnv = SingleEnv(imageExists: bool, clock: real, storeAccepts: bool,
                                 idField: Option<string>, pollStart: real, events: seq<Event>)

  datatype DualEnv = DualEnv(donorExists: bool, canvasExists: bool, clock: real,
                             donorStoreAccepts: bool, canvasStoreAccepts: bool,
                             idField: Option<string>, pollStart: real, events: seq<Event>)

  /**
   * `edit_single_image`. Returns the result, the keys it sent to the store, in order, and the
   * job input it submitted, if it got that far. The poll uses the defaults of
   * `wait_for_completion` (10 s interval, 1800 s budget).
   */
  method EditSingleImage(imagePath: string, p: Params, env: SingleEnv)
    returns (r: EditResult, uploads: seq<string>, submitted: Option<JobInput>)
    requires Stops(env.pollStart, DefaultMaxWaitTime, env.events)
    ensures !env.imageExists ==> uploads == []
    ensures env.imageExists ==> uploads == [SingleKey(Truncate(env.clock), imagePath)]
    ensures !env.imageExists ==> r == EditError("Image file does not exist: " + imagePath) && submitted == None
    ensures env.imageExists && !env.storeAccepts ==> r == EditError("Image S3 upload failed") && submitted == None
    ensures env.imageExists && env.storeAccepts ==>
      submitted == Some(SingleInput(VolumePath(SingleKey(Truncate(env.clock), imagePath)), p))
    ensures submitted.Some? ==> submitted.value.steps == (if p.useLightning then 4 else p.steps)
    ensures submitted.Some? && SubmitJob(env.idField) == None ==> r == EditError("Job submission failed")
    ensures submitted.Some? && SubmitJob(env.idField).Some? ==>
      r == Job(Poll(SubmitJob(env.idField).value, env.pollStart, DefaultMaxWaitTime, env.events))
  {
    uploads := [];
    if !env.imageExists {
      return EditError("Image file does not exist: " + imagePath), uploads, None;
    }
    var timestamp := Truncate(env.clock);
    var key := SingleKey(timestamp, imagePath);
    var upload := UploadToS3(env.imageExists, key, env.storeAccepts);
    if upload.storeCalled {
      uploads := [key];
    }
    if upload.path == None {
      return EditError("Image S3 upload failed"), uploads, None;
    }
    var input := SingleInput(upload.path.value, p);
    submitted := Some(input);
    r := SubmitAndWait(env.idField, env.pollStart, env.events);
  }

  /**
   * The two uploads of a dual edit, once both files are known to exist: the donor first, and
   * the canvas only when the donor upload succeeded. `uploads` lists the keys sent to the store.
   */
  method UploadDual(donorPath: string, canvasPath: string, timestamp: int, env: DualEnv)
    returns (donorRef: Option<string>, canvasRef: Option<string>, uploads: seq<string>)
    requires env.donorExists && env.canvasExists
    ensures !env.donorStoreAccepts ==> uploads == [DonorKey(timestamp, donorPath)]
    ensures env.donorStoreAccepts ==> uploads == [DonorKey(timestamp, donorPath), CanvasKey(timestamp, canvasPath)]
    ensures donorRef == if env.donorStoreAccepts then Some(VolumePath(DonorKey(timestamp, donorPath))) else None
    ensures canvasRef ==
      if env.donorStoreAccepts && env.canvasStoreAccepts then Some(VolumePath(CanvasKey(timestamp, canvasPath))) else None
  {
    var donorKey := DonorKey(timestamp, donorPath);
    var donorUpload := UploadToS3(env.donorExists, donorKey, env.donorStoreAccepts);
    uploads := [donorKey];
    donorRef, canvasRef := donorUpload.path, None;
    if donorUpload.path == None {
      return;
    }
    var canvasKey := CanvasKey(timestamp, canvasPath);
    var canvasUpload := UploadToS3(env.canvasExists, canvasKey, env.canvasStoreAccepts);
    uploads := uploads + [canvasKey];
    canvasRef := canvasUpload.path;
  }

  /**
   * `edit_dual_image`: both files are checked before anything is uploaded; the donor is
   * uploaded before the canvas, both under one timestamp, and the canvas only once the donor
   * upload succeeded. `uploads` lists the keys sent to the store, in order.
   */
  method EditDualImage(donorPath: string, canvasPath: string, p: Params, env: DualEnv)
    returns (r: EditResult, uploads: seq<string>, submitted: Option<JobInput>)
    requires Stops(env.pollStart, DefaultMaxWaitTime, env.events)
    ensures !(env.donorExists && env.canvasExists) ==> uploads == []
    ensures env.donorExists && env.canvasExists && !env.donorStoreAccepts ==>
      uploads == [DonorKey(Truncate(env.clock), donorPath)]
    ensures env.donorExists && env.canvasExists && env.donorStoreAccepts ==>
      uploads == [DonorKey(Truncate(env.clock), donorPath), CanvasKey(Truncate(env.clock), canvasPath)]
    ensures !env.donorExists ==> r == EditError("First image file does not exist: " + donorPath) && submitted == None
    ensures env.donorExists && !env.canvasExists ==>
      r == EditError("Second image file does not exist: " + canvasPath) && submitted == None
    ensures env.donorExists && env.canvasExists && !env.donorStoreAccepts ==>
      r == EditError("First image S3 upload failed") && submitted == None
    ensures env.donorExists && env.canvasExists && env.donorStoreAccepts && !env.canvasStoreAccepts ==>
      r == EditError("Second image S3 upload failed") && submitted == None
    ensures env.donorExists && env.canvasExists && env.donorStoreAccepts && env.canvasStoreAccepts ==>
      var ts := Truncate(env.clock);
      submitted == Some(DualInput(VolumePath(DonorKey(ts, donorPath)), VolumePath(CanvasKey(ts, canvasPath)), p))
    ensures submitted.Some? ==> submitted.value.steps == (if p.useLightning then 4 else p.steps)
    ensures submitted.Some? ==> submitted.value.imagePath2.Some? && submitted.value.imagePath != submitted.value.imagePath2.value
    ensures submitted.Some? && SubmitJob(env.idField) == None ==> r == EditError("Job submission failed")
    ensures submitted.Some? && SubmitJob(env.idField).Some? ==>
      r == Job(Poll(SubmitJob(env.idField).value, env.pollStart, DefaultMaxWaitTime, env.events))
  {
    uploads := [];
    if !env.donorExists {
      return EditError("First image file does not exist: " + donorPath), uploads, None;
    }
    if !env.canvasExists {
      return EditError("Second image file does not exist: " + canvasPath), uploads, None;
    }
    var timestamp := Truncate(env.clock);
    var donorRef, canvasRef;
    donorRef, canvasRef, uploads := UploadDual(donorPath, canvasPath, timestamp, env);
    if donorRef == None {
      return EditError("First image S3 upload failed"), uploads, None;
    }
    if canvasRef == None {
      return EditError("Second image S3 upload failed"), uploads, None;
    }
    DualReferencesDistinct(timestamp, donorPath, canvasPath);
    var input := DualInput(donorRef.value, canvasRef.value, p);
    submitted := Some(input);
    r := SubmitAndWait(env.idField, env.pollStart, env.events);
  }
}
