/** The generator wizard as a stateful object: the step counter, the form,
    the generated images, and the submission routine with its uploads, its
    retried AI call and its error reporting. The backend client is a
    parameter whose answers are given in advance. */
module ModelGenerator {
  import opened Wrappers
  import opened Records
  import opened WizardForm
  import opened GenerationPrompt
  import Seqs
  import Text

  /** The answers of the backend client for one submission: the outcome of the
      k-th `storage.upload`, the data (image URLs, "" for a missing one) or
      error of the k-th `ai.modifyImage`, the answer of `auth.me`, and the
      outcome of `db.generations.create`. */
  datatype Backend = Backend(
    upload: nat -> Result<string>,
    modifyImage: nat -> Result<seq<string>>,
    me: Result<User>,
    create: Result<()>)

  /** One `ai.modifyImage` request (size 1024x1024, quality high, four variations). */
  datatype AiCall = AiCall(images: seq<string>, prompt: string)

  /** The row handed to `db.generations.create`. */
  datatype GenerationRow = GenerationRow(
    user_id: string,
    reference_files: string,
    gender: string,
    ethnicity: string,
    fashion_style: string,
    facial_features: FacialFeatures,
    body_features: BodyFeatures,
    background: string,
    custom_background: string,
    generated_images: string,
    is_favorite: int)

  /** The backend calls one submission made, in the order they happen: storage
      paths uploaded, AI requests, whether `auth.me` was asked, the row saved. */
  datatype Trace = Trace(uploads: seq<string>, aiCalls: seq<AiCall>, askedUser: bool, saved: Option<GenerationRow>)

  /** How the `try` block of `handleGenerate()` ends: after saving the row
      for `count` images, or with a thrown error whose message is `message`
      ("" for an error without one). */
  datatype Outcome = Completed(count: nat) | Threw(message: string)

  /** The toast shown at the end of a submission. */
  datatype Toast = GenerationComplete(count: nat) | GenerationFailed(description: string)

  /** The `catch` block: a thrown error is shown through `ErrorMessage`. */
  function ToastFor(outcome: Outcome): (t: Toast)
    ensures outcome.Completed? <==> t.GenerationComplete?
    ensures outcome.Completed? ==> t == GenerationComplete(outcome.count)
    ensures outcome.Threw? ==> t == GenerationFailed(ErrorMessage(outcome.message))
    ensures t.GenerationFailed? ==> t.description != ""
  {
    match outcome
    case Completed(count) => GenerationComplete(count)
    case Threw(message) => GenerationFailed(ErrorMessage(message))
  }

  const ReferencesFolder: string := "references/"

  /** The storage path of a reference file: the folder followed by the file's name. */
  function UploadPath(file: File): string
  {
    ReferencesFolder + file.name
  }

  function UploadPaths(files: seq<File>): (paths: seq<string>)
    ensures |paths| == |files|
    ensures forall k :: 0 <= k < |files| ==> paths[k] == UploadPath(files[k])
  {
    seq(|files|, k requires 0 <= k < |files| => UploadPath(files[k]))
  }

  /** Every upload lands in the references folder under the file's own name,
      which can be read back from the path; two files get the same path
      exactly when they have the same name, so the later upload replaces
      the earlier one. */
  lemma UploadPathsByName(files: seq<File>, i: int, j: int)
    requires 0 <= i < |files| && 0 <= j < |files|
    ensures |UploadPaths(files)| == |files|
    ensures Text.StartsWith(UploadPaths(files)[i], ReferencesFolder)
    ensures UploadPaths(files)[i][|ReferencesFolder|..] == files[i].name
    ensures UploadPaths(files)[i] == UploadPaths(files)[j] <==> files[i].name == files[j].name
  {
    var p, q := UploadPaths(files)[i], UploadPaths(files)[j];
    assert p[..|ReferencesFolder|] == ReferencesFolder;
    assert p[|ReferencesFolder|..] == files[i].name;
    assert q[|ReferencesFolder|..] == files[j].name;
  }

  predicate NonEmpty(url: string)
  {
    url != ""
  }

  /** `result.data.map(img => img.url).filter(url => url)` */
  function UsableUrls(data: seq<string>): (urls: seq<string>)
    ensures forall u :: u in urls <==> u in data && u != ""
    ensures Seqs.IsSubsequence(urls, data)
    ensures forall u :: multiset(urls)[u] == if u != "" then multiset(data)[u] else 0
  {
    Seqs.FilterMultiplicity(data, NonEmpty);
    forall u ensures u in Seqs.Filter(data, NonEmpty) <==> u in data && NonEmpty(u) {
      Seqs.FilterMembership(data, NonEmpty, u);
    }
    Seqs.FilterIsSubsequence(data, NonEmpty);
    Seqs.Filter(data, NonEmpty)
  }

  /** Uploads the reference files one after another, collecting their public
      URLs; the first failing upload ends the loop with its error. */
  method UploadReferences(files: seq<File>, upload: nat -> Result<string>)
    returns (urls: seq<string>, failure: Option<string>)
    ensures |urls| <= |files|
    ensures forall k :: 0 <= k < |urls| ==> upload(k) == Ok(urls[k])
    ensures failure.None? ==> |urls| == |files|
    ensures failure.Some? ==> |urls| < |files| && upload(|urls|) == Err(failure.value)
  {
    urls := [];
    var i := 0;
    while i < |files|
      invariant 0 <= i <= |files| && |urls| == i
      invariant forall k :: 0 <= k < i ==> upload(k) == Ok(urls[k])
    {
      var outcome := upload(i);
      if outcome.Err? {
        return urls, Some(outcome.message);
      }
      urls := urls + [outcome.value];
      i := i + 1;
    }
    failure := None;
  }

  /** The AI call with its fallbacks: the first prompt, and for Figure Study the
      safer and the final prompt after each failure. It stops at the first
      answer; the error of the last attempt made is the result. */
  method RequestImages(prompts: seq<string>, retry: bool, urls: seq<string>, modifyImage: nat -> Result<seq<string>>)
    returns (result: Result<seq<string>>, calls: seq<AiCall>)
    requires |prompts| == if retry then 3 else 1
    ensures 1 <= |calls| <= |prompts|
    ensures forall k :: 0 <= k < |calls| ==> calls[k] == AiCall(urls, prompts[k])
    ensures result == modifyImage(|calls| - 1)
    ensures forall k :: 0 <= k < |calls| - 1 ==> modifyImage(k).Err?
    ensures result.Err? ==> |calls| == |prompts|
  {
    calls := [AiCall(urls, prompts[0])];
    result := modifyImage(0);
    if result.Err? && retry {
      calls := calls + [AiCall(urls, prompts[1])];
      result := modifyImage(1);
      if result.Err? {
        calls := calls + [AiCall(urls, prompts[2])];
        result := modifyImage(2);
      }
    }
  }

  /**
   * The `generations` row written for a finished submission: the user, the
   * uploaded and generated URLs joined with commas, the form's selections
   * under their column names and an unset favourite flag.
   */
  function SavedRow(userId: string, form: FormData, referenceUrls: seq<string>, imageUrls: seq<string>): (row: GenerationRow)
    ensures row.user_id == userId && row.is_favorite == 0
    ensures row.reference_files == Text.Join(referenceUrls) && row.generated_images == Text.Join(imageUrls)
    ensures row.gender == form.gender && row.ethnicity == form.ethnicity
    ensures row.fashion_style == form.fashionStyle && row.background == form.background
    ensures row.custom_background == form.customPrompt
    ensures row.facial_features == form.facialFeatures && row.body_features == form.bodyFeatures
  {
    GenerationRow(
      userId, Text.Join(referenceUrls), form.gender, form.ethnicity, form.fashionStyle,
      form.facialFeatures, form.bodyFeatures, form.background, form.customPrompt,
      Text.Join(imageUrls), 0)
  }

  /** The joined URL columns of a saved row split back, at ',', into the
      URLs they were made from, as the history and dashboard pages read
      them, provided no URL holds a comma. */
  lemma SavedRowReadsBack(userId: string, form: FormData, referenceUrls: seq<string>, imageUrls: seq<string>)
    requires referenceUrls != [] && imageUrls != []
    requires forall k :: 0 <= k < |referenceUrls| ==> ',' !in referenceUrls[k]
    requires forall k :: 0 <= k < |imageUrls| ==> ',' !in imageUrls[k]
    ensures Text.Split(SavedRow(userId, form, referenceUrls, imageUrls).reference_files, ',') == referenceUrls
    ensures Text.Split(SavedRow(userId, form, referenceUrls, imageUrls).generated_images, ',') == imageUrls
  {
    Text.SplitJoin(referenceUrls);
    Text.SplitJoin(imageUrls);
  }

  /** What `handleGenerate()` does with the AI answer `result` once the
      references are uploaded to `urls`: an error answer is rethrown, and an
      empty answer or one without a usable URL throws its own error;
      otherwise the usable URLs are shown, `auth.me` is asked, and with a
      user the row is saved, the submission completing exactly when that
      write does. */
  predicate Delivered(form: FormData, urls: seq<string>, result: Result<seq<string>>, backend: Backend,
                      askedUser: bool, saved: Option<GenerationRow>, outcome: Outcome, shown: Option<seq<string>>)
  {
    && (result.Err? ==> outcome == Threw(result.message))
    && (result == Ok([]) ==> outcome == Threw(NoImagesErrorText))
    && (result.Ok? && result.value != [] && UsableUrls(result.value) == [] ==>
          outcome == Threw(InvalidImagesErrorText))
    && (askedUser <==> result.Ok? && UsableUrls(result.value) != [])
    && (shown.Some? <==> askedUser)
    && (askedUser ==> shown.value == UsableUrls(result.value))
    && (askedUser && backend.me.Err? ==> outcome == Threw(backend.me.message))
    && (saved.Some? <==> askedUser && backend.me.Ok?)
    && (saved.Some? ==> saved.value == SavedRow(backend.me.value.id, form, urls, shown.value))
    && (saved.Some? && backend.create.Err? ==> outcome == Threw(backend.create.message))
    && (outcome.Completed? <==> saved.Some? && backend.create.Ok?)
    && (outcome.Completed? ==>
          shown.Some? && outcome.count == |shown.value| > 0 && forall u :: u in shown.value ==> u != "")
  }

  /** The steps of `handleGenerate()` after the AI call. */
  method Deliver(form: FormData, urls: seq<string>, result: Result<seq<string>>, backend: Backend)
    returns (askedUser: bool, saved: Option<GenerationRow>, outcome: Outcome, shown: Option<seq<string>>)
    ensures Delivered(form, urls, result, backend, askedUser, saved, outcome, shown)
  {
    askedUser, saved, shown := false, None, None;
    if result.Err? {
      outcome := Threw(result.message);
      return;
    }
    if result.value == [] {
      outcome := Threw(NoImagesErrorText);
      return;
    }
    var imageUrls := UsableUrls(result.value);
    if imageUrls == [] {
      outcome := Threw(InvalidImagesErrorText);
      return;
    }
    shown := Some(imageUrls);
    askedUser := true;
    if backend.me.Err? {
      outcome := Threw(backend.me.message);
      return;
    }
    saved := Some(SavedRow(backend.me.value.id, form, urls, imageUrls));
    if backend.create.Err? {
      outcome := Threw(backend.create.message);
      return;
    }
    outcome := Completed(|imageUrls|);
  }

  /** What the `try` block of `handleGenerate()` does for the form `form`,
      against the given backend answers: the calls made (`trace`), how the
      block ends (`outcome`), and the images handed to `setGeneratedImages`
      (`shown`, `None` when it is not reached). */
  predicate Submitted(form: FormData, backend: Backend, trace: Trace, outcome: Outcome, shown: Option<seq<string>>)
  {
    // Submitting without reference files throws before any backend call.
    && (|form.referenceFiles| == 0 ==>
          trace == Trace([], [], false, None) && outcome == Threw(NoReferenceErrorText) && shown == None)
    // Files are uploaded in order; a failing upload ends the submission with its error.
    && |trace.uploads| <= |form.referenceFiles|
    && trace.uploads == UploadPaths(form.referenceFiles[..|trace.uploads|])
    && (forall k :: 0 <= k < |trace.uploads| - 1 ==> backend.upload(k).Ok?)
    && (|form.referenceFiles| > 0 && trace.aiCalls == [] ==>
          |trace.uploads| > 0 && backend.upload(|trace.uploads| - 1).Err?
          && outcome == Threw(backend.upload(|trace.uploads| - 1).message))
    // The AI is called only once every file is uploaded, with their URLs, at
    // most three times for Figure Study and once otherwise, each attempt
    // after a failed one.
    && |trace.aiCalls| <= MaxAttempts(form.fashionStyle)
    && (trace.aiCalls != [] ==>
          |trace.uploads| == |form.referenceFiles| > 0
          && forall k :: 0 <= k < |trace.uploads| ==> backend.upload(k).Ok?)
    && (forall k :: 0 <= k < |trace.aiCalls| ==>
          trace.aiCalls[k].prompt == AttemptPrompts(form)[k]
          && |trace.aiCalls[k].images| == |form.referenceFiles|
          && forall j :: 0 <= j < |form.referenceFiles| ==> backend.upload(j) == Ok(trace.aiCalls[k].images[j]))
    && (forall k :: 0 <= k < |trace.aiCalls| - 1 ==> backend.modifyImage(k).Err?)
    && (trace.aiCalls != [] && backend.modifyImage(|trace.aiCalls| - 1).Err? ==>
          |trace.aiCalls| == MaxAttempts(form.fashionStyle))
    // Without an AI answer nothing else happens; with one, the last answer
    // decides the rest.
    && (trace.aiCalls == [] ==>
          !trace.askedUser && trace.saved == None && shown == None && outcome.Threw?)
    && (trace.aiCalls != [] ==>
          Delivered(form, trace.aiCalls[0].images, backend.modifyImage(|trace.aiCalls| - 1), backend,
                    trace.askedUser, trace.saved, outcome, shown))
  }

  /** The `try` block of `handleGenerate()`. */
  method Submit(form: FormData, backend: Backend) returns (trace: Trace, outcome: Outcome, shown: Option<seq<string>>)
    ensures Submitted(form, backend, trace, outcome, shown)
  {
    trace := Trace([], [], false, None);
    shown := None;
    var files := form.referenceFiles;
    if |files| == 0 {
      outcome := Threw(NoReferenceErrorText);
      return;
    }
    var urls, uploadFailure := UploadReferences(files, backend.upload);
    if uploadFailure.Some? {
      trace := trace.(uploads := UploadPaths(files[..|urls| + 1]));
      outcome := Threw(uploadFailure.value);
      return;
    }
    assert files[..|urls|] == files;
    var result, calls := RequestImages(AttemptPrompts(form), form.fashionStyle == FigureStudy, urls, backend.modifyImage);
    assert calls[0].images == urls && result == backend.modifyImage(|calls| - 1);
    var askedUser, saved;
    askedUser, saved, outcome, shown := Deliver(form, urls, result, backend);
    trace := Trace(UploadPaths(files), calls, askedUser, saved);
  }

  class Wizard {
    var currentStep: int
    var isGenerating: bool
    var generatedImages: seq<string>
    var form: FormData

    ghost predicate Valid()
      reads this
    {
      0 <= currentStep <= LastStep
    }

    constructor ()
      ensures Valid()
      ensures currentStep == 0 && !isGenerating && generatedImages == [] && form == InitialForm
    {
      currentStep := 0;
      isGenerating := false;
      generatedImages := [];
      form := InitialForm;
    }

    /** `nextStep()`: one step forward unless already on the last step. */
    method NextStep()
      requires Valid()
      modifies this`currentStep
      ensures Valid()
      ensures currentStep == if old(currentStep) < LastStep then old(currentStep) + 1 else old(currentStep)
    {
      if currentStep < StepCount - 1 {
        currentStep := currentStep + 1;
      }
    }

    /** `prevStep()`: one step back unless already on the first step. */
    method PrevStep()
      requires Valid()
      modifies this`currentStep
      ensures Valid()
      ensures currentStep == if old(currentStep) > 0 then old(currentStep) - 1 else old(currentStep)
    {
      if currentStep > 0 {
        currentStep := currentStep - 1;
      }
    }

    /** The Next button for the current step (absent, or enabled or not). */
    function NextButtonState(): Option<bool>
      reads this
    {
      NextButton(currentStep, form)
    }

    /** Choosing an option on step 1, 2, 3 or 5. */
    method Choose(step: int, value: string)
      requires Valid() && step in {1, 2, 3, 5}
      modifies this`form
      ensures Valid()
      ensures form == Select(old(form), step, value)
    {
      form := Select(form, step, value);
    }

    /** Editing the custom background details. */
    method SetCustomPrompt(text: string)
      requires Valid()
      modifies this`form
      ensures Valid()
      ensures form == old(form).(customPrompt := text)
    {
      form := form.(customPrompt := text);
    }

    /** `handleFileUpload(files)` */
    method HandleFileUpload(files: Option<seq<File>>)
      requires Valid()
      modifies this`form
      ensures Valid()
      ensures form == old(form).(referenceFiles := AfterUpload(old(form).referenceFiles, files))
    {
      if files.None? {
        return;
      }
      var newFiles := Seqs.Filter(files.value, IsMedia);
      form := form.(referenceFiles := form.referenceFiles + newFiles);
    }

    /** `removeFile(index)` */
    method RemoveFile(index: int)
      requires Valid()
      modifies this`form
      ensures Valid()
      ensures form == old(form).(referenceFiles := DropIndex(old(form).referenceFiles, index))
      ensures 0 <= index < |old(form).referenceFiles| ==>
        form.referenceFiles == old(form).referenceFiles[..index] + old(form).referenceFiles[index + 1..]
      ensures !(0 <= index < |old(form).referenceFiles|) ==> form == old(form)
    {
      form := form.(referenceFiles := DropIndex(form.referenceFiles, index));
    }

    /** "Generate Another Model": back to step 0 with no images and a pristine form. */
    method Restart()
      modifies this`currentStep, this`generatedImages, this`form
      ensures Valid()
      ensures currentStep == 0 && generatedImages == [] && form == InitialForm && IsPristine(form)
    {
      currentStep := 0;
      generatedImages := [];
      form := InitialForm;
    }

    /** `handleGenerate()`: runs the submission, keeps the images it shows
        and ends with the toast of its outcome. */
    method Generate(backend: Backend) returns (trace: Trace, outcome: Outcome, toast: Toast)
      requires Valid()
      modifies this`isGenerating, this`generatedImages
      ensures Valid()
      ensures !isGenerating
      ensures toast == ToastFor(outcome)
      ensures |form.referenceFiles| == 0 ==> trace == Trace([], [], false, None) && outcome == Threw(NoReferenceErrorText)
      ensures |trace.aiCalls| <= MaxAttempts(form.fashionStyle)
      ensures forall k :: 0 <= k < |trace.aiCalls| ==> trace.aiCalls[k].prompt == AttemptPrompts(form)[k]
      ensures trace.askedUser ==> trace.aiCalls != [] && backend.modifyImage(|trace.aiCalls| - 1).Ok?
      ensures trace.askedUser ==> generatedImages == UsableUrls(backend.modifyImage(|trace.aiCalls| - 1).value)
      ensures !trace.askedUser ==> generatedImages == old(generatedImages)
      ensures outcome.Completed? ==> outcome.count == |generatedImages| > 0
      // The trace and outcome are those of one run of the submission, whose
      // shown images, if any, replace the old ones.
      ensures exists shown ::
                && Submitted(form, backend, trace, outcome, shown)
                && generatedImages == (if shown.Some? then shown.value else old(generatedImages))
    {
      isGenerating := true;
      var shown;
      trace, outcome, shown := Submit(form, backend);
      if shown.Some? {
        generatedImages := shown.value;
      }
      assert Submitted(form, backend, trace, outcome, shown);
      toast := ToastFor(outcome);
      isGenerating := false;
    }
  }
}
