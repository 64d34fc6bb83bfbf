/** The generator wizard's form: its fields, the per-step guard that enables
    the Next button, and the edits to the reference-file list. */
module WizardForm {
  import opened Wrappers
  import Text
  import Seqs

  /** The steps upload, gender, ethnicity, fashion, features, background, generate. */
  const StepCount: int := 7
  const LastStep: int := StepCount - 1

  /** A file chosen in the upload field; `mimeType` is the browser's `file.type`. */
  datatype File = File(name: string, mimeType: string)

  /** Each slider holds its value as a one-element array, as the slider widget reports it. */
  datatype FacialFeatures = FacialFeatures(
    eyeSize: seq<int>, noseShape: seq<int>, lipFullness: seq<int>, jawline: seq<int>, cheekbones: seq<int>)

  datatype BodyFeatures = BodyFeatures(height: seq<int>, build: seq<int>, musculature: seq<int>)

  datatype FormData = FormData(
    referenceFiles: seq<File>,
    gender: string,
    ethnicity: string,
    fashionStyle: string,
    facialFeatures: FacialFeatures,
    bodyFeatures: BodyFeatures,
    background: string,
    customPrompt: string)

  /** The form the wizard starts with and returns to on "Generate Another Model". */
  const InitialForm: FormData := FormData(
    [], "", "", "",
    FacialFeatures([50], [50], [50], [50], [50]),
    BodyFeatures([50], [50], [50]),
    "", "")

  /** No reference file, every text field empty, all eight sliders at 50. */
  predicate IsPristine(f: FormData)
  {
    && f.referenceFiles == []
    && f.gender == "" && f.ethnicity == "" && f.fashionStyle == ""
    && f.background == "" && f.customPrompt == ""
    && f.facialFeatures.eyeSize == [50] && f.facialFeatures.noseShape == [50]
    && f.facialFeatures.lipFullness == [50] && f.facialFeatures.jawline == [50]
    && f.facialFeatures.cheekbones == [50]
    && f.bodyFeatures.height == [50] && f.bodyFeatures.build == [50]
    && f.bodyFeatures.musculature == [50]
  }

  /** The initial form is the only pristine one. */
  lemma PristineIsInitial(f: FormData)
    ensures IsPristine(f) <==> f == InitialForm
  {
    if IsPristine(f) {
      assert f.facialFeatures == InitialForm.facialFeatures;
      assert f.bodyFeatures == InitialForm.bodyFeatures;
    }
  }

  /** `canProceed()`: may the user leave `step` forwards? */
  predicate CanProceed(step: int, f: FormData)
  {
    if step == 0 then |f.referenceFiles| > 0
    else if step == 1 then f.gender != ""
    else if step == 2 then f.ethnicity != ""
    else if step == 3 then f.fashionStyle != ""
    else if step == 4 then true
    else if step == 5 then f.background != ""
    else true
  }

  /** The guard waits only for selections: a complete form may leave any step,
      while the initial form is held on exactly the upload, gender, ethnicity,
      style and background steps; the features step and any step past the
      background never hold the user back. */
  lemma CanProceedWaitsOnlyForSelections(f: FormData, step: int)
    ensures Ready(f) ==> CanProceed(step, f)
    ensures !CanProceed(step, InitialForm) <==> step in {0, 1, 2, 3, 5}
    ensures step == 4 || step > 5 ==> CanProceed(step, f)
  {
  }

  /** Every selection the wizard asks for has been made. */
  predicate Ready(f: FormData)
  {
    |f.referenceFiles| > 0 && f.gender != "" && f.ethnicity != ""
    && f.fashionStyle != "" && f.background != ""
  }

  /** The form is complete exactly when the guard of every step before the last holds. */
  lemma ReadyIffEveryStepProceeds(f: FormData)
    ensures Ready(f) <==> forall s :: 0 <= s < LastStep ==> CanProceed(s, f)
  {
    if forall s :: 0 <= s < LastStep ==> CanProceed(s, f) {
      assert CanProceed(0, f) && CanProceed(1, f) && CanProceed(2, f);
      assert CanProceed(3, f) && CanProceed(5, f);
    }
  }

  /** The form with the selection that step `step` asks for set to `v`
      (the radio-group handlers of steps 1, 2, 3 and 5). */
  function Select(f: FormData, step: int, v: string): (g: FormData)
    requires step in {1, 2, 3, 5}
    ensures g.referenceFiles == f.referenceFiles && g.customPrompt == f.customPrompt
    ensures step == 1 ==> g == f.(gender := v)
    ensures step == 2 ==> g == f.(ethnicity := v)
    ensures step == 3 ==> g == f.(fashionStyle := v)
    ensures step == 5 ==> g == f.(background := v)
  {
    if step == 1 then f.(gender := v)
    else if step == 2 then f.(ethnicity := v)
    else if step == 3 then f.(fashionStyle := v)
    else f.(background := v)
  }

  /** A guarded step opens once its selection is made and closes again when it
      is cleared; the other steps' guards are not affected. */
  lemma SelectionGuardsStep(f: FormData, step: int, v: string, other: int)
    requires step in {1, 2, 3, 5}
    requires other != step
    ensures CanProceed(step, Select(f, step, v)) <==> v != ""
    ensures !CanProceed(step, Select(Select(f, step, v), step, ""))
    ensures CanProceed(other, Select(f, step, v)) == CanProceed(other, f)
  {
  }

  /** The Next button: absent on the last step (`None`), otherwise present and
      enabled exactly when the step's guard holds. */
  function NextButton(step: int, f: FormData): (b: Option<bool>)
    ensures b.Some? <==> step < LastStep
    ensures b.Some? ==> (b.value <==> CanProceed(step, f))
  {
    if step < LastStep then Some(CanProceed(step, f)) else None
  }

  /** The upload field's filter: images and videos only. */
  predicate IsMedia(file: File)
  {
    Text.StartsWith(file.mimeType, "image/") || Text.StartsWith(file.mimeType, "video/")
  }

  /** The reference-file list after `handleFileUpload(files)`: the accepted
      files appended in input order; a null file list changes nothing. */
  function AfterUpload(current: seq<File>, files: Option<seq<File>>): (r: seq<File>)
    ensures files.None? ==> r == current
    ensures |current| <= |r| && r[..|current|] == current
    ensures files.Some? ==> forall x :: x in r[|current|..] <==> x in files.value && IsMedia(x)
    ensures files.Some? ==> Seqs.IsSubsequence(r[|current|..], files.value)
    ensures files.Some? ==> forall x :: multiset(r[|current|..])[x] == if IsMedia(x) then multiset(files.value)[x] else 0
  {
    if files.None? then current
    else
      var added := Seqs.Filter(files.value, IsMedia);
      var r := current + added;
      assert r[|current|..] == added;
      forall x ensures x in added <==> x in files.value && IsMedia(x) {
        Seqs.FilterMembership(files.value, IsMedia, x);
      }
      Seqs.FilterIsSubsequence(files.value, IsMedia);
      Seqs.FilterMultiplicity(files.value, IsMedia);
      r
  }

  /** `list.filter((_, i) => i !== index)`, written as the filter walks. */
  function DropIndex<T>(s: seq<T>, index: int): (r: seq<T>)
    ensures 0 <= index < |s| ==> r == s[..index] + s[index + 1..]
    ensures !(0 <= index < |s|) ==> r == s
  {
    if s == [] then []
    else (if index == 0 then [] else [s[0]]) + DropIndex(s[1..], index - 1)
  }
}
