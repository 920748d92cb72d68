/** The upload dialog of the documents page (`DocumentUploadWizard`): the same three steps as the
    upload page, but with a single synchronous analysis request, a pre-filled form, and a dialog
    that refuses to close while a request is in flight. On a successful save it resets itself and
    notifies its parent (`onSuccess`, when given, then `onClose`).

    As on the page, each asynchronous handler is split at its `await` into `Begin…` and `End…`. */
module UploadWizard {
  import opened Common
  import opened JsonValues
  import opened Api
  import opened UploadForm

  /** `"saving"` is a declared step that no handler ever enters. */
  datatype Step = UploadStep | ProcessingStep | ReviewStep | SavingStep

  const UploadFailed: string := "Upload failed"
  const AnalysisFailed: string := "Analysis failed"
  const SaveFailed: string := "Save failed"

  /** The state `resetWizard` restores. */
  datatype State = State(
    step: Step,
    selectedFile: Option<SelectedFile>,
    uploadedFile: Option<UploadedFile>,
    analysisResult: Option<AnalysisResult>,
    processing: bool,
    saving: bool,
    error: Option<string>,
    formData: Object)

  /** A fresh wizard: the upload step, nothing chosen, no flags, the initial form. */
  function Fresh(): (r: State)
    ensures r.step == UploadStep && r.selectedFile.None? && r.uploadedFile.None? && r.analysisResult.None?
    ensures !r.processing && !r.saving && r.error.None?
    ensures r.formData == InitialForm()
  {
    State(UploadStep, None, None, None, false, false, None, InitialForm())
  }

  /** The dialog's `onOpenChange`: a request to close reaches `onClose` only while neither an
      upload, an analysis nor a save is in flight; opening never does. */
  function ClosesOn(open: bool, processing: bool, saving: bool): (closes: bool)
    ensures closes ==> !open
    ensures processing || saving ==> !closes
    ensures !open && !processing && !saving ==> closes
  {
    !open && !processing && !saving
  }

  class Wizard {
    /** The dialog's props: the folder uploads go to, and whether `onSuccess` was passed. */
    const folderId: Option<string>
    const hasOnSuccess: bool

    var step: Step
    var selectedFile: Option<SelectedFile>
    var uploadedFile: Option<UploadedFile>
    var analysisResult: Option<AnalysisResult>
    var processing: bool
    var saving: bool
    var error: Option<string>
    var formData: Object

    /** The wizard's whole state, for stating what a handler leaves unchanged. */
    function Snapshot(): State
      reads this
    {
      State(step, selectedFile, uploadedFile, analysisResult, processing, saving, error, formData)
    }

    /** The review step is only ever shown for an uploaded and analysed file, and the step
        nobody enters is never current. */
    ghost predicate Valid()
      reads this
    {
      && (step == ReviewStep ==> uploadedFile.Some? && analysisResult.Some?)
      && step != SavingStep
    }

    constructor (folderId: Option<string>, hasOnSuccess: bool)
      ensures Valid()
      ensures this.folderId == folderId && this.hasOnSuccess == hasOnSuccess
      ensures Snapshot() == Fresh()
    {
      this.folderId := folderId;
      this.hasOnSuccess := hasOnSuccess;
      step := UploadStep;
      selectedFile := None;
      uploadedFile := None;
      analysisResult := None;
      processing := false;
      saving := false;
      error := None;
      formData := InitialForm();
    }

    /** `resetWizard`. */
    method Reset()
      modifies this
      ensures Valid()
      ensures Snapshot() == Fresh()
    {
      step := UploadStep;
      selectedFile := None;
      uploadedFile := None;
      analysisResult := None;
      processing := false;
      saving := false;
      error := None;
      formData := InitialForm();
    }

    /** `onOpenChange(open)`: whether `onClose` is called. The wizard's own state is untouched. */
    method OpenChange(open: bool) returns (callsOnClose: bool)
      ensures callsOnClose == ClosesOn(open, processing, saving)
    {
      callsOnClose := !open && !processing && !saving;
    }

    /** `handleFileSelect`. */
    method SelectFile(file: Option<SelectedFile>)
      requires Valid()
      modifies this`selectedFile, this`error
      ensures Valid()
      ensures file.Some? ==> selectedFile == file && error.None?
      ensures file.None? ==> selectedFile == old(selectedFile) && error == old(error)
    {
      if file.Some? {
        selectedFile := file;
        error := None;
      }
    }

    /** `handleUpload` up to its request: nothing without a selected file; otherwise processing
        starts (the dialog now refuses to close) and the folder and the file's name are sent. */
    method BeginUpload() returns (fields: Option<seq<(string, string)>>)
      requires Valid()
      modifies this`processing, this`error
      ensures Valid()
      ensures old(selectedFile).None? ==> fields.None? && processing == old(processing) && error == old(error)
      ensures old(selectedFile).Some? ==>
        && fields == Some(UploadFields(folderId, Some(selectedFile.value.name)))
        && processing && error.None?
    {
      if selectedFile.None? {
        return None;
      }
      processing := true;
      error := None;
      fields := Some(UploadFields(folderId, Some(selectedFile.value.name)));
    }

    /** `handleUpload` after the reply: the uploaded file is kept on the upload step, or the
        error is shown. Processing ends either way. */
    method EndUpload(reply: Result<UploadedFile>)
      requires Valid()
      modifies this`uploadedFile, this`step, this`error, this`processing
      ensures Valid()
      ensures !processing
      ensures reply.Ok? ==> uploadedFile == Some(reply.value) && step == UploadStep && error == old(error)
      ensures reply.Err? ==>
        && error == Some(OrElse(reply.message, UploadFailed))
        && uploadedFile == old(uploadedFile) && step == old(step)
    {
      match reply {
        case Ok(file) =>
          uploadedFile := Some(file);
          step := UploadStep;
        case Err(m) =>
          error := Some(OrElse(m, UploadFailed));
      }
      processing := false;
    }

    /** `handleAnalyze` up to its request: nothing without an uploaded file; otherwise the
        processing step is shown and the file's path is sent. */
    method BeginAnalyze() returns (path: Option<string>)
      requires Valid()
      modifies this`processing, this`error, this`step
      ensures Valid()
      ensures old(uploadedFile).None? ==> path.None? && step == old(step) && processing == old(processing) && error == old(error)
      ensures old(uploadedFile).Some? ==>
        path == Some(uploadedFile.value.path) && step == ProcessingStep && processing && error.None?
    {
      if uploadedFile.None? {
        return None;
      }
      processing := true;
      error := None;
      step := ProcessingStep;
      path := Some(uploadedFile.value.path);
    }

    /** `handleAnalyze` after the reply: the result is shown for review with the form
        pre-filled from its metadata, or the wizard returns to the upload step with the error.
        It continues a `BeginAnalyze` that found an uploaded file. */
    method EndAnalyze(reply: Result<AnalysisResult>)
      requires Valid() && uploadedFile.Some?
      modifies this`analysisResult, this`formData, this`step, this`error, this`processing
      ensures Valid()
      ensures !processing
      ensures reply.Ok? ==>
        && analysisResult == Some(reply.value) && formData == Prefill(reply.value.metadata)
        && step == ReviewStep && error == old(error)
      ensures reply.Err? ==>
        && error == Some(OrElse(reply.message, AnalysisFailed)) && step == UploadStep
        && analysisResult == old(analysisResult) && formData == old(formData)
    {
      match reply {
        case Ok(r) =>
          analysisResult := Some(r);
          formData := Prefill(r.metadata);
          step := ReviewStep;
        case Err(m) =>
          error := Some(OrElse(m, AnalysisFailed));
          step := UploadStep;
      }
      processing := false;
    }

    /** `handleSave` up to its request: nothing unless a file was uploaded and analysed;
        otherwise saving starts (the dialog now refuses to close). */
    method BeginSave() returns (request: Option<SaveRequest>)
      requires Valid()
      modifies this`saving, this`error
      ensures Valid()
      ensures old(uploadedFile).None? || old(analysisResult).None? ==>
        request.None? && saving == old(saving) && error == old(error)
      ensures old(uploadedFile).Some? && old(analysisResult).Some? ==>
        && request == Some(SaveRequestFor(uploadedFile.value, analysisResult.value, formData, folderId))
        && saving && error.None?
    {
      if uploadedFile.None? || analysisResult.None? {
        return None;
      }
      saving := true;
      error := None;
      request := Some(SaveRequestFor(uploadedFile.value, analysisResult.value, formData, folderId));
    }

    /** `handleSave` after the reply: a saved document resets the wizard and notifies the
        parent (`onSuccess` when given, then `onClose`); a failure shows its error and keeps
        everything else. */
    method EndSave(reply: Result<Json>) returns (callsOnSuccess: bool, callsOnClose: bool)
      requires Valid()
      modifies this
      ensures Valid()
      ensures !saving
      ensures reply.Ok? ==> Snapshot() == Fresh() && callsOnSuccess == hasOnSuccess && callsOnClose
      ensures reply.Err? ==>
        && Snapshot() == old(Snapshot()).(saving := false, error := Some(OrElse(reply.message, SaveFailed)))
        && !callsOnSuccess && !callsOnClose
    {
      match reply {
        case Ok(_) =>
          saving := false;
          Reset();
          callsOnSuccess := hasOnSuccess;
          callsOnClose := true;
        case Err(m) =>
          error := Some(OrElse(m, SaveFailed));
          saving := false;
          callsOnSuccess := false;
          callsOnClose := false;
      }
    }

    /** The review step's Cancel button: back to the upload step, keeping everything else. */
    method BackToUpload()
      requires Valid()
      modifies this`step
      ensures Valid()
      ensures step == UploadStep
    {
      step := UploadStep;
    }

    /** `setFormData(prev => ({ ...prev, [key]: v }))`, as the plain text fields (title, FIR
        number, district, police station, information mode, GD entry number, place, summary) do
        with the text typed. */
    method EditField(key: string, v: Json)
      requires Valid()
      modifies this`formData
      ensures Valid()
      ensures formData == old(formData)[key := v]
    {
      formData := formData[key := v];
    }

    /** The Acts and Sections inputs: comma-separated, trimmed, empty entries dropped. */
    method EditList(key: string, value: string)
      requires Valid() && (key == "acts" || key == "sections")
      modifies this`formData
      ensures Valid()
      ensures formData == old(formData)[key := Strings(ParseListWizard(value))]
    {
      EditField(key, Strings(ParseListWizard(value)));
    }

    /** The Informant inputs: `{ ...(prev.informant || {}), [field]: v }`. */
    method EditInformant(field: string, v: string)
      requires Valid()
      modifies this`formData
      ensures Valid()
      ensures formData == EditNested(old(formData), "informant", field, v)
    {
      formData := EditNested(formData, "informant", field, v);
    }

    /** The FIR Year input: `value ? parseInt(value) || null : null`, given `parseInt`'s result. */
    method EditYear(value: string, parsed: Option<int>)
      requires Valid()
      modifies this`formData
      ensures Valid()
      ensures formData == old(formData)["fir_year" := if value != "" then YearValue(parsed) else JNull]
    {
      EditField("fir_year", if value != "" then YearValue(parsed) else JNull);
    }

    /** `handleDateChange(field, value)`. */
    method EditDate(key: string, value: string, toIso: string -> string)
      requires Valid()
      modifies this`formData
      ensures Valid()
      ensures formData == old(formData)[key := DateValue(value, toIso)]
    {
      EditField(key, DateValue(value, toIso));
    }
  }
}
