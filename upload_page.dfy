/** The stand-alone upload page (`/documents/upload`): pick a file, upload it to temporary
    storage, start an asynchronous analysis and wait for it, review the extracted fields, save.

    Each asynchronous handler is split at its first `await`: `Begin…` is the synchronous part
    (the guard, the flags it raises, what it sends), `End…` the part after the reply settles,
    with the reply as a parameter. */
module UploadPage {
  import opened Common
  import opened JsonValues
  import opened Api
  import opened UploadForm
  import opened AnalysisPoll

  datatype Step = UploadStep | ProcessingStep | ReviewStep

  const UploadFailed: string := "Upload failed"
  const SaveFailed: string := "Save failed"
  const DocumentsRoute: string := "/documents"

  class Page {
    /** `folderId` from the query string, `undefined` when absent or empty. */
    var folderId: Option<string>
    var step: Step
    var selectedFile: Option<SelectedFile>
    var uploadedFile: Option<UploadedFile>
    var analysisResult: Option<AnalysisResult>
    var processing: bool
    var saving: bool
    var error: Option<string>
    var formData: Object
    /** Where `router.push` last sent the browser, if anywhere. */
    var navigatedTo: Option<string>

    /** The review step is only ever shown for an uploaded and analysed file. */
    ghost predicate Valid()
      reads this
    {
      step == ReviewStep ==> uploadedFile.Some? && analysisResult.Some?
    }

    /** First render, then the mount effect that reads `?folderId=`. */
    constructor (folderParam: Option<string>)
      ensures Valid()
      ensures folderId == (if Present(folderParam) then folderParam else None)
      ensures step == UploadStep && selectedFile.None? && uploadedFile.None? && analysisResult.None?
      ensures !processing && !saving && error.None? && formData == map[] && navigatedTo.None?
    {
      folderId := if Present(folderParam) then folderParam else None;
      step := UploadStep;
      selectedFile := None;
      uploadedFile := None;
      analysisResult := None;
      processing := false;
      saving := false;
      error := None;
      formData := map[];
      navigatedTo := None;
    }

    /** `handleFileSelect`: a chosen file replaces the selection and clears the error; an empty
        choice changes nothing. */
    method SelectFile(file: Option<SelectedFile>)
      requires Valid()
      modifies this
      ensures Valid()
      ensures file.Some? ==> selectedFile == file && error.None?
      ensures file.None? ==> selectedFile == old(selectedFile) && error == old(error)
      ensures step == old(step) && uploadedFile == old(uploadedFile) && analysisResult == old(analysisResult)
      ensures processing == old(processing) && saving == old(saving) && formData == old(formData)
      ensures folderId == old(folderId) && navigatedTo == old(navigatedTo)
    {
      if file.Some? {
        selectedFile := file;
        error := None;
      }
    }

    /** `handleUpload` up to its request: nothing without a selected file; otherwise processing
        starts and the form fields sent are the folder and the file's name as title. */
    method BeginUpload() returns (fields: Option<seq<(string, string)>>)
      requires Valid()
      modifies this
      ensures Valid()
      ensures old(selectedFile).None? ==> fields.None? && processing == old(processing) && error == old(error)
      ensures old(selectedFile).Some? ==>
        && fields == Some(UploadFields(folderId, Some(old(selectedFile).value.name)))
        && processing && error.None?
      ensures step == old(step) && selectedFile == old(selectedFile) && uploadedFile == old(uploadedFile)
      ensures analysisResult == old(analysisResult) && saving == old(saving) && formData == old(formData)
      ensures folderId == old(folderId) && navigatedTo == old(navigatedTo)
    {
      if selectedFile.None? {
        return None;
      }
      processing := true;
      error := None;
      fields := Some(UploadFields(folderId, Some(selectedFile.value.name)));
    }

    /** `handleUpload` after the reply: the uploaded file is kept and the page stays on the
        upload step (now offering Analyze), or the error is shown. Processing ends either way. */
    method EndUpload(reply: Result<UploadedFile>)
      requires Valid()
      modifies this
      ensures Valid()
      ensures !processing
      ensures reply.Ok? ==> uploadedFile == Some(reply.value) && step == UploadStep && error == old(error)
      ensures reply.Err? ==>
        && error == Some(OrElse(reply.message, UploadFailed))
        && uploadedFile == old(uploadedFile) && step == old(step)
      ensures selectedFile == old(selectedFile) && analysisResult == old(analysisResult)
      ensures saving == old(saving) && formData == old(formData)
      ensures folderId == old(folderId) && navigatedTo == old(navigatedTo)
    {
      match reply {
        case Ok(file) =>
          uploadedFile := Some(file);
          step := UploadStep;
        case Err(m) =>
          error := Some(OrElse(m, UploadFailed));
      }
      processing := false;
    }

    /** `handleAnalyze` up to its first request: nothing without an uploaded file; otherwise the
        processing step is shown and the file's path is sent. */
    method BeginAnalyze() returns (path: Option<string>)
      requires Valid()
      modifies this
      ensures Valid()
      ensures old(uploadedFile).None? ==> path.None? && step == old(step) && processing == old(processing) && error == old(error)
      ensures old(uploadedFile).Some? ==>
        path == Some(old(uploadedFile).value.path) && step == ProcessingStep && processing && error.None?
      ensures selectedFile == old(selectedFile) && uploadedFile == old(uploadedFile)
      ensures analysisResult == old(analysisResult) && saving == old(saving) && formData == old(formData)
      ensures folderId == old(folderId) && navigatedTo == old(navigatedTo)
    {
      if uploadedFile.None? {
        return None;
      }
      processing := true;
      error := None;
      step := ProcessingStep;
      path := Some(uploadedFile.value.path);
    }

    /** `handleAnalyze` from the job's start on: when the job starts, the status is polled; a
        completed job shows its result for review, with the form set to its metadata; anything
        else returns to the upload step with the error. It continues a `BeginAnalyze` that found
        an uploaded file. */
    method EndAnalyze(start: Result<string>, answers: nat -> Answer) returns (polled: Option<Polled>)
      requires Valid() && uploadedFile.Some?
      modifies this
      ensures Valid()
      ensures !processing
      ensures start.Err? ==> polled.None?
      ensures start.Ok? ==> polled == Some(PollFrom(answers, 0, 0))
      ensures var done := polled.Some? && polled.value.outcome.Completed?;
        && (done ==>
              && analysisResult == Some(polled.value.outcome.result)
              && formData == FormOf(polled.value.outcome.result.metadata)
              && step == ReviewStep && error == old(error))
        && (!done ==>
              && step == UploadStep && analysisResult == old(analysisResult) && formData == old(formData)
              && error == Some(if start.Err? then OrElse(start.message, AnalysisFailed) else FailureMessage(polled.value.outcome)))
      ensures selectedFile == old(selectedFile) && uploadedFile == old(uploadedFile) && saving == old(saving)
      ensures folderId == old(folderId) && navigatedTo == old(navigatedTo)
    {
      if start.Err? {
        error := Some(OrElse(start.message, AnalysisFailed));
        step := UploadStep;
        processing := false;
        return None;
      }
      var p := Poll(answers);
      polled := Some(p);
      if p.outcome.Completed? {
        analysisResult := Some(p.outcome.result);
        formData := FormOf(p.outcome.result.metadata);
        step := ReviewStep;
      } else {
        error := Some(FailureMessage(p.outcome));
        step := UploadStep;
      }
      processing := false;
    }
  
    /** `handleSave` up to its request: nothing unless a file was uploaded and analysed;
        otherwise saving starts and the request carries the file, the form, the folder and the
        OCR output. */
    method BeginSave() returns (request: Option<SaveRequest>)
      requires Valid()
      modifies this
      ensures Valid()
      ensures old(uploadedFile).None? || old(analysisResult).None? ==>
        request.None? && saving == old(saving) && error == old(error)
      ensures old(uploadedFile).Some? && old(analysisResult).Some? ==>
        && request == Some(SaveRequestFor(old(uploadedFile).value, old(analysisResult).value, formData, folderId))
        && saving && error.None?
      ensures step == old(step) && selectedFile == old(selectedFile) && uploadedFile == old(uploadedFile)
      ensures analysisResult == old(analysisResult) && processing == old(processing) && formData == old(formData)
      ensures folderId == old(folderId) && navigatedTo == old(navigatedTo)
    {
      if uploadedFile.None? || analysisResult.None? {
        return None;
      }
      saving := true;
      error := None;
      request := Some(SaveRequestFor(uploadedFile.value, analysisResult.value, formData, folderId));
    }

    /** `handleSave` after the reply: a saved document sends the browser to the documents list;
        a failure shows its error. Saving ends either way. */
    method EndSave(reply: Result<Json>)
      requires Valid()
      modifies this
      ensures Valid()
      ensures !saving
      ensures reply.Ok? ==> navigatedTo == Some(DocumentsRoute) && error == old(error)
      ensures reply.Err? ==> error == Some(OrElse(reply.message, SaveFailed)) && navigatedTo == old(navigatedTo)
      ensures step == old(step) && selectedFile == old(selectedFile) && uploadedFile == old(uploadedFile)
      ensures analysisResult == old(analysisResult) && processing == old(processing) && formData == old(formData)
      ensures folderId == old(folderId)
    {
      match reply {
        case Ok(_) =>
          navigatedTo := Some(DocumentsRoute);
        case Err(m) =>
          error := Some(OrElse(m, SaveFailed));
      }
      saving := false;
    }

    /** The review step's Back button. */
    method BackToUpload()
      requires Valid()
      modifies this`step
      ensures Valid()
      ensures step == UploadStep
    {
      step := UploadStep;
    }

    /** A review field edit: `setFormData({ ...formData, [key]: v })`, as the plain text fields
        (title, FIR number, district, police station, place, GD entry number, information mode,
        summary) do with the text typed. */
    method EditField(key: string, v: Json)
      requires Valid()
      modifies this`formData
      ensures Valid()
      ensures formData == old(formData)[key := v]
    {
      formData := formData[key := v];
    }

    /** The Acts input: comma-separated, trimmed, empty entries dropped. */
    method EditActs(value: string)
      requires Valid()
      modifies this`formData
      ensures Valid()
      ensures formData == old(formData)["acts" := Strings(ParseList(value))]
    {
      EditField("acts", Strings(ParseList(value)));
    }

    /** The Sections input: comma-separated and trimmed, empty entries kept. */
    method EditSections(value: string)
      requires Valid()
      modifies this`formData
      ensures Valid()
      ensures formData == old(formData)["sections" := Strings(ParseSectionsKeepingEmpty(value))]
    {
      EditField("sections", Strings(ParseSectionsKeepingEmpty(value)));
    }

    /** The Informant inputs, shown only while the form has a truthy informant. */
    method EditInformant(field: string, v: string)
      requires Valid() && Truthy(Get(formData, "informant"))
      modifies this`formData
      ensures Valid()
      ensures formData == EditNested(old(formData), "informant", field, v)
    {
      formData := EditNested(formData, "informant", field, v);
    }

    /** The Property Lost and Property Recovered inputs: `{ ...(formData.property || {}), … }`. */
    method EditProperty(field: string, v: string)
      requires Valid()
      modifies this`formData
      ensures Valid()
      ensures formData == EditNested(old(formData), "property", field, v)
    {
      formData := EditNested(formData, "property", field, v);
    }

    /** The Accused and Victim Names inputs: one `{ name }` object per non-empty trimmed name. */
    method EditNames(key: string, value: string)
      requires Valid() && (key == "accused_list" || key == "victim_list")
      modifies this`formData
      ensures Valid()
      ensures formData == old(formData)[key := JArr(ParseNames(value))]
    {
      EditField(key, JArr(ParseNames(value)));
    }

    /** The Vehicles input: one `{ reg_no, type }` object per non-empty line. */
    method EditVehicles(value: string)
      requires Valid()
      modifies this`formData
      ensures Valid()
      ensures formData == old(formData)["vehicle" := JArr(VehicleJsons(ParseVehicles(value)))]
    {
      EditField("vehicle", JArr(VehicleJsons(ParseVehicles(value))));
    }
  
    /** The FIR Year input, given `parseInt`'s result for what was typed. */
    method EditYear(parsed: Option<int>)
      requires Valid()
      modifies this`formData
      ensures Valid()
      ensures formData == old(formData)["fir_year" := YearValue(parsed)]
    {
      EditField("fir_year", YearValue(parsed));
    }

    /** The registration, occurrence and GD entry date inputs: an ISO timestamp, or `null` when
        cleared. */
    method EditDate(key: string, value: string, toIso: string -> string)
      requires Valid()
      modifies this`formData
      ensures Valid()
      ensures formData == old(formData)[key := DateValue(value, toIso)]
    {
      EditField(key, DateValue(value, toIso));
    }
  }
}
