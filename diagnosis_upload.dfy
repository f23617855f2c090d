/**
 * The patient's upload form: pick an image, describe symptoms, run the
 * simulated analysis (a fixed result after five progress steps) and save
 * it through the diagnosis service.
 */
module DiagnosisUpload {
  import opened Wrappers
  import opened Records
  import opened DiagnosisService

  /** One step of the simulated analysis. */
  datatype Step = Step(progress: nat, message: string)

  const Steps: seq<Step> := [
    Step(20, "图像预处理中..."),
    Step(40, "特征提取中..."),
    Step(60, "AI模型分析中..."),
    Step(80, "结果生成中..."),
    Step(100, "分析完成")
  ]

  /** What the result panel shows. */
  datatype AnalysisResult = AnalysisResult(
    diagnosis: string,
    confidence: real,
    riskLevel: string,
    riskColor: string,
    details: seq<string>,
    recommendations: seq<string>,
    needsDoctorReview: bool)

  /** The fixed result every analysis produces. */
  const MockResult := AnalysisResult(
    "良性色素痣", 92.5, "低风险", "green",
    ["图像质量良好，病变边界清晰", "色素分布均匀，无明显不对称",
     "病变直径约3mm，在正常范围内", "表面平滑，无溃疡或出血征象"],
    ["建议定期观察，如有变化及时就医", "避免长时间阳光暴晒",
     "保持皮肤清洁和滋润", "建议6个月后复查"],
    true)

  /** The notes text written into the record: confidence and risk of the result. */
  const MockNotes := "AI置信度: 92.5%, 风险等级: 低风险"

  /** The update that stores the AI result on the new record; it carries no status. */
  const AiUpdates := Updates(Some(MockResult.diagnosis), Some(MockNotes), None)

  /** `getRiskBadgeColor`. */
  function RiskBadgeColor(level: string): (c: string)
    ensures level == "低风险" ==> c == "bg-green-100 text-green-800"
    ensures level == "中风险" ==> c == "bg-yellow-100 text-yellow-800"
    ensures level == "高风险" ==> c == "bg-red-100 text-red-800"
    ensures level !in {"低风险", "中风险", "高风险"} ==> c == "bg-gray-100 text-gray-800"
  {
    match level
    case "低风险" => "bg-green-100 text-green-800"
    case "中风险" => "bg-yellow-100 text-yellow-800"
    case "高风险" => "bg-red-100 text-red-800"
    case _ => "bg-gray-100 text-gray-800"
  }

  /** Strictly increasing values. */
  predicate Increasing(xs: seq<nat>) {
    forall i, j :: 0 <= i < j < |xs| ==> xs[i] < xs[j]
  }

  /** The progress values the bar shows, in order, during one analysis. */
  const ProgressTrace: seq<nat> := [0, 20, 40, 60, 80, 100]

  /** The bar only moves forward and ends full. */
  lemma ProgressTraceIncreasing()
    ensures Increasing(ProgressTrace) && ProgressTrace[|ProgressTrace| - 1] == 100
  {
  }

  /** The record insert of the save goes through: the upload, the login and the insert all succeed. */
  predicate Created(file: File, upload: Uploader, user: Option<UserId>, insertError: Option<string>) {
    upload(file).Ok? && user.Some? && insertError.None?
  }

  /**
   * The table after the record insert of a save of `file`: one new row under
   * `id`, created pending at `createdAt` from the file's URL and the
   * symptoms.  It carries the AI result, stamped `updatedAt` by the later
   * update, only when that update goes through: the update's login
   * (`updateUser`) is present and the backend accepts it.
   */
  function Saved(records: map<RecordId, DiagnosisRecord>, id: RecordId, file: File, symptoms: string,
                 upload: Uploader, user: Option<UserId>, updateUser: Option<UserId>, updateError: Option<string>,
                 createdAt: int, updatedAt: int): map<RecordId, DiagnosisRecord>
    requires upload(file).Ok? && user.Some?
  {
    var row := NewRecord(id, user.value, [upload(file).value], Some(symptoms), createdAt);
    records[id := if updateUser.Some? && updateError.None? then ApplyUpdate(row, AiUpdates, updateUser.value, updatedAt) else row]
  }

  /**
   * The save step of `handleAnalysis`: a record is created from exactly the
   * one file and the symptoms, then updated with the AI result as doctor
   * diagnosis and notes.  A thrown error (a failed create, or no login at
   * the update) shows the failure notice; the update's returned error is
   * not looked at, so a rejected update still shows the success notice.
   * The create and the update each read the clock: `createdAt`, then `updatedAt`.
   */
  method Save(backend: Backend, file: File, symptoms: string, upload: Uploader, user: Option<UserId>,
              insertError: Option<string>, updateUser: Option<UserId>, updateError: Option<string>,
              createdAt: int, updatedAt: int)
    returns (saved: bool)
    requires backend.Valid()
    modifies backend
    ensures backend.Valid()
    ensures saved <==> Created(file, upload, user, insertError) && updateUser.Some?
    ensures backend.bucket == old(backend.bucket) + (if upload(file).Ok? then [upload(file).value] else [])
    ensures !Created(file, upload, user, insertError) ==> backend.records == old(backend.records)
    ensures Created(file, upload, user, insertError) ==>
              && old(backend.nextId) !in old(backend.records)
              && backend.records == Saved(old(backend.records), old(backend.nextId), file, symptoms, upload, user,
                                          updateUser, updateError, createdAt, updatedAt)
  {
    assert [file][0] == file;
    var created := backend.CreateDiagnosis([file], Some(symptoms), upload, user, insertError, createdAt);
    if created.Err? {
      return false;
    }
    assert created.value.imageUrls == [upload(file).value];
    var updated := backend.UpdateDiagnosis(created.value.id, AiUpdates, updateUser, updateError, updatedAt);
    saved := updated != Err(NotLoggedIn);
  }

  /**
   * The form's state.  `progressLog` records every value the progress bar
   * has been set to since the last analysis began.
   */
  class UploadForm {
    var selectedFile: Option<File>
    var isAnalyzing: bool
    var analysisResult: Option<AnalysisResult>
    var symptoms: string
    var progress: nat
    ghost var progressLog: seq<nat>

    constructor ()
      ensures selectedFile.None? && !isAnalyzing && analysisResult.None? && symptoms == "" && progress == 0
    {
      selectedFile := None;
      isAnalyzing := false;
      analysisResult := None;
      symptoms := "";
      progress := 0;
      progressLog := [];
    }

    /** `handleFileSelect`: picking nothing changes nothing; a new file discards the old result. */
    method SelectFile(file: Option<File>)
      modifies this
      ensures file.None? ==> selectedFile == old(selectedFile) && analysisResult == old(analysisResult)
      ensures file.Some? ==> selectedFile == file && analysisResult.None?
      ensures isAnalyzing == old(isAnalyzing) && symptoms == old(symptoms) && progress == old(progress)
      ensures progressLog == old(progressLog)
    {
      if file.Some? {
        selectedFile := file;
        analysisResult := None;
      }
    }

    /** The symptoms box's `onChange`. */
    method EditSymptoms(text: string)
      modifies this
      ensures symptoms == text
      ensures selectedFile == old(selectedFile) && analysisResult == old(analysisResult)
      ensures isAnalyzing == old(isAnalyzing) && progress == old(progress) && progressLog == old(progressLog)
    {
      symptoms := text;
    }

    /** The progress loop: the bar takes each step's value in turn. */
    method RunSteps()
      requires progressLog == [0] && progress == 0
      modifies this
      ensures progress == 100 && progressLog == ProgressTrace
      ensures selectedFile == old(selectedFile) && analysisResult == old(analysisResult)
      ensures isAnalyzing == old(isAnalyzing) && symptoms == old(symptoms)
    {
      var i := 0;
      while i < |Steps|
        invariant 0 <= i <= |Steps|
        invariant progressLog == ProgressTrace[..i + 1]
        invariant progress == ProgressTrace[i]
        invariant selectedFile == old(selectedFile) && analysisResult == old(analysisResult)
        invariant isAnalyzing == old(isAnalyzing) && symptoms == old(symptoms)
      {
        progress := Steps[i].progress;
        progressLog := progressLog + [progress];
        i := i + 1;
      }
    }

    /**
     * `handleAnalysis`.  Without a file nothing happens.  Otherwise the bar
     * runs through the steps, the fixed result is shown, and only then is a
     * record created from the one file and the symptoms and given the AI
     * result as doctor diagnosis and notes.  A failed save leaves the shown
     * result in place; the returned flag tells which notice appears.
     */
    method Analyze(backend: Backend, upload: Uploader, user: Option<UserId>, insertError: Option<string>,
                   updateUser: Option<UserId>, updateError: Option<string>, createdAt: int, updatedAt: int)
      returns (saved: bool)
      requires backend.Valid()
      modifies this, backend
      ensures backend.Valid()
      ensures old(selectedFile).None? ==>
                && !saved && selectedFile == old(selectedFile) && analysisResult == old(analysisResult)
                && isAnalyzing == old(isAnalyzing) && progress == old(progress) && progressLog == old(progressLog)
                && symptoms == old(symptoms) && backend.records == old(backend.records)
                && backend.bucket == old(backend.bucket) && backend.order == old(backend.order)
                && backend.nextId == old(backend.nextId)
      ensures old(selectedFile).Some? ==>
                && selectedFile == old(selectedFile) && symptoms == old(symptoms)
                && analysisResult == Some(MockResult) && !isAnalyzing
                && progress == 100 && progressLog == ProgressTrace
                && (saved <==> Created(old(selectedFile).value, upload, user, insertError) && updateUser.Some?)
                && backend.bucket == old(backend.bucket) +
                     (if upload(old(selectedFile).value).Ok? then [upload(old(selectedFile).value).value] else [])
                && (!Created(old(selectedFile).value, upload, user, insertError) ==> backend.records == old(backend.records))
                && (Created(old(selectedFile).value, upload, user, insertError) ==>
                      backend.records == Saved(old(backend.records), old(backend.nextId), old(selectedFile).value,
                                               old(symptoms), upload, user, updateUser, updateError,
                                               createdAt, updatedAt))
    {
      if selectedFile.None? {
        return false;
      }
      isAnalyzing := true;
      progress := 0;
      progressLog := [0];
      RunSteps();
      analysisResult := Some(MockResult);
      isAnalyzing := false;

      saved := Save(backend, selectedFile.value, symptoms, upload, user, insertError, updateUser, updateError,
                    createdAt, updatedAt);
    }
  }

  /** The record a successful save leaves behind is still pending, so it reaches the review queue. */
  lemma SavedRecordStaysPending(id: RecordId, patient: UserId, url: string, symptoms: string, createdAt: int, updatedAt: int)
    ensures ApplyUpdate(NewRecord(id, patient, [url], Some(symptoms), createdAt), AiUpdates, patient, updatedAt).status == Pending
    ensures ApplyUpdate(NewRecord(id, patient, [url], Some(symptoms), createdAt), AiUpdates, patient, updatedAt).doctorId == Some(patient)
  {
  }
}
