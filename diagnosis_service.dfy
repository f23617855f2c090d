/**
 * The diagnosis-record service: image upload, record creation, the doctor's
 * update, and the two newest-first listings, over an in-memory stand-in for
 * the hosted storage bucket and `diagnosis_records` table.
 */
module DiagnosisService {
  import opened Wrappers
  import opened Records
  import opened Sequences

  /** An image the user picked; only its name and type reach the service. */
  datatype File = File(name: string, mimeType: string)

  /**
   * The storage bucket seen from the service: uploading a file either yields
   * its public URL or fails with the storage error's message.
   */
  type Uploader = File -> Result<string, string>

  /** How a service call fails. */
  datatype ServiceError =
    | UploadFailed(message: string)   // the storage error, rethrown and caught
    | NotLoggedIn                     // `new Error('未登录')`
    | InsertRejected(message: string) // the insert's own error, e.g. a row-level policy
    | NoRow                           // `.single()` on an update that matched no row
    | UpdateRejected(message: string) // the update's own error, e.g. a row-level policy

  /**
   * What the upload loop of `createDiagnosis` achieves: files are uploaded in
   * order and the first failure stops the loop.  The first component lists
   * the URLs of the files uploaded before it stopped, the second the error
   * that stopped it, if any.
   */
  function Uploads(files: seq<File>, upload: Uploader): (r: (seq<string>, Option<string>))
    ensures |r.0| <= |files|
    ensures forall i :: 0 <= i < |r.0| ==> upload(files[i]) == Ok(r.0[i])
    ensures r.1.None? <==> |r.0| == |files|
    ensures r.1.None? <==> forall i :: 0 <= i < |files| ==> upload(files[i]).Ok?
    ensures r.1.Some? ==> upload(files[|r.0|]) == Err(r.1.value)
  {
    if files == [] then ([], None)
    else match upload(files[0])
      case Err(e) => ([], Some(e))
      case Ok(url) =>
        var rest := Uploads(files[1..], upload);
        var urls := [url] + rest.0;
        assert forall i :: 0 < i < |urls| ==> urls[i] == rest.0[i - 1] && files[i] == files[1..][i - 1];
        (urls, rest.1)
  }

  /** One step of the upload loop: the file at `i` either stops it or contributes the next URL. */
  lemma UploadsStep(files: seq<File>, upload: Uploader, i: nat)
    requires i < |files|
    ensures upload(files[i]).Err? ==> Uploads(files[i..], upload) == ([], Some(upload(files[i]).error))
    ensures upload(files[i]).Ok? ==>
              && Uploads(files[i..], upload).0 == [upload(files[i]).value] + Uploads(files[i + 1..], upload).0
              && Uploads(files[i..], upload).1 == Uploads(files[i + 1..], upload).1
  {
    assert files[i..][0] == files[i] && files[i..][1..] == files[i + 1..];
  }

  /** The upload loop of `createDiagnosis`, one `await` per file. */
  method UploadImages(files: seq<File>, upload: Uploader) returns (urls: seq<string>, failure: Option<string>)
    ensures (urls, failure) == Uploads(files, upload)
  {
    urls := [];
    var i := 0;
    assert files[0..] == files;
    while i < |files|
      invariant 0 <= i <= |files|
      invariant Uploads(files, upload).0 == urls + Uploads(files[i..], upload).0
      invariant Uploads(files, upload).1 == Uploads(files[i..], upload).1
    {
      var outcome := upload(files[i]);
      UploadsStep(files, upload, i);
      if outcome.Err? {
        assert urls + [] == urls;
        return urls, Some(outcome.error);
      }
      assert urls + ([outcome.value] + Uploads(files[i + 1..], upload).0)
          == (urls + [outcome.value]) + Uploads(files[i + 1..], upload).0;
      urls := urls + [outcome.value];
      i := i + 1;
    }
    assert urls + [] == urls;
    failure := None;
  }

  /** The row `createDiagnosis` inserts: only patient, images and symptoms are given, status is pending. */
  function NewRecord(id: RecordId, patient: UserId, urls: seq<string>, symptoms: Option<string>, now: int): (r: DiagnosisRecord)
    ensures r.id == id && r.status == Pending && r.patientId == patient && r.imageUrls == urls && r.symptoms == symptoms
    ensures r.aiDiagnosis.None? && r.aiConfidence.None? && r.riskLevel.None?
    ensures r.doctorId.None? && r.doctorDiagnosis.None? && r.doctorNotes.None?
    ensures r.createdAt == now && r.updatedAt == now
  {
    DiagnosisRecord(id, patient, urls, symptoms, None, None, None, Pending, None, None, None, now, now)
  }

  /** The status values `updateDiagnosis` accepts. */
  type ReviewStatus = s: Status | s != Pending witness Reviewed

  /** The `updates` argument of `updateDiagnosis`; `None` is an absent key. */
  datatype Updates = Updates(doctorDiagnosis: Option<string>, doctorNotes: Option<string>, status: Option<ReviewStatus>)

  /** The given value when the key is present, the old one otherwise. */
  function Merge<T>(given: Option<T>, current: T): T {
    if given.Some? then given.value else current
  }

  /**
   * The row after `updateDiagnosis`: the supplied fields, the reviewing
   * doctor and a fresh `updated_at` are written; nothing else changes.
   */
  function ApplyUpdate(rec: DiagnosisRecord, u: Updates, doctor: UserId, now: int): (r: DiagnosisRecord)
    ensures r.id == rec.id && r.patientId == rec.patientId && r.imageUrls == rec.imageUrls
    ensures r.symptoms == rec.symptoms && r.aiDiagnosis == rec.aiDiagnosis
    ensures r.aiConfidence == rec.aiConfidence && r.riskLevel == rec.riskLevel && r.createdAt == rec.createdAt
    ensures r.doctorId == Some(doctor) && r.updatedAt == now
    ensures r.status == (if u.status.Some? then u.status.value else rec.status)
    ensures r.doctorDiagnosis == (if u.doctorDiagnosis.Some? then u.doctorDiagnosis else rec.doctorDiagnosis)
    ensures r.doctorNotes == (if u.doctorNotes.Some? then u.doctorNotes else rec.doctorNotes)
  {
    rec.(status := Merge(u.status, rec.status),
         doctorDiagnosis := if u.doctorDiagnosis.Some? then u.doctorDiagnosis else rec.doctorDiagnosis,
         doctorNotes := if u.doctorNotes.Some? then u.doctorNotes else rec.doctorNotes,
         doctorId := Some(doctor),
         updatedAt := now)
  }

  /** An update never returns a record to pending; it only stays pending when no status is given. */
  lemma UpdateNeverReopens(rec: DiagnosisRecord, u: Updates, doctor: UserId, now: int)
    ensures ApplyUpdate(rec, u, doctor, now).status == Pending <==> rec.status == Pending && u.status.None?
  {
  }

  /** There is no status guard: a given status is written whatever the record's current status. */
  lemma UpdateIgnoresCurrentStatus(rec: DiagnosisRecord, u: Updates, doctor: UserId, now: int, s: Status)
    requires u.status.Some?
    ensures ApplyUpdate(rec.(status := s), u, doctor, now) == ApplyUpdate(rec, u, doctor, now)
  {
  }

  /** Repeating the same update at the same time changes nothing more. */
  lemma UpdateIdempotent(rec: DiagnosisRecord, u: Updates, doctor: UserId, now: int)
    ensures ApplyUpdate(ApplyUpdate(rec, u, doctor, now), u, doctor, now) == ApplyUpdate(rec, u, doctor, now)
  {
  }

  // ---------------------------------------------------------------------
  // Newest-first ordering of listings
  // ---------------------------------------------------------------------

  /** `.order('created_at', { ascending: false })`. */
  predicate NewestFirst(rs: seq<DiagnosisRecord>) {
    forall i, j :: 0 <= i < j < |rs| ==> rs[i].createdAt >= rs[j].createdAt
  }

  /** Places `r` into a newest-first list. */
  function InsertByTime(r: DiagnosisRecord, rs: seq<DiagnosisRecord>): (out: seq<DiagnosisRecord>)
    requires NewestFirst(rs)
    ensures NewestFirst(out)
    ensures |out| == |rs| + 1 && (out[0] == r || (rs != [] && out[0] == rs[0]))
  {
    if rs == [] || r.createdAt >= rs[0].createdAt then
      var out := [r] + rs;
      assert forall j :: 0 < j < |out| ==> out[j] == rs[j - 1];
      out
    else
      var rest := InsertByTime(r, rs[1..]);
      var out := [rs[0]] + rest;
      assert rs[0].createdAt >= rest[0].createdAt;
      assert forall j :: 0 < j < |out| ==> out[j] == rest[j - 1];
      out
  }

  /** Insertion adds exactly the one record. */
  lemma {:induction false} InsertByTimeAddsOne(r: DiagnosisRecord, rs: seq<DiagnosisRecord>)
    requires NewestFirst(rs)
    ensures multiset(InsertByTime(r, rs)) == multiset{r} + multiset(rs)
  {
    if rs != [] && r.createdAt < rs[0].createdAt {
      InsertByTimeAddsOne(r, rs[1..]);
      assert rs == [rs[0]] + rs[1..];
    }
  }

  /** A newest-first arrangement of the records. */
  function SortNewestFirst(rs: seq<DiagnosisRecord>): (out: seq<DiagnosisRecord>)
    ensures NewestFirst(out)
    ensures |out| == |rs|
  {
    if rs == [] then [] else InsertByTime(rs[0], SortNewestFirst(rs[1..]))
  }

  /** Sorting keeps exactly the same records: it is a permutation. */
  lemma {:induction false} SortIsPermutation(rs: seq<DiagnosisRecord>)
    ensures multiset(SortNewestFirst(rs)) == multiset(rs)
  {
    if rs != [] {
      var sorted := SortNewestFirst(rs[1..]);
      SortIsPermutation(rs[1..]);
      InsertByTimeAddsOne(rs[0], sorted);
      assert SortNewestFirst(rs) == InsertByTime(rs[0], sorted);
      assert rs == [rs[0]] + rs[1..];
    }
  }

  /** The pending records, in their original relative order. */
  function PendingOnly(rs: seq<DiagnosisRecord>): (out: seq<DiagnosisRecord>)
    ensures |out| <= |rs|
    ensures forall x :: x in out <==> x in rs && x.status == Pending
    ensures forall x :: multiset(out)[x] == if x.status == Pending then multiset(rs)[x] else 0
    ensures IsSubsequence(out, rs)
  {
    if rs == [] then []
    else
      assert rs == [rs[0]] + rs[1..];
      var rest := PendingOnly(rs[1..]);
      if rs[0].status == Pending then
        var out := [rs[0]] + rest;
        assert out[1..] == rest;
        out
      else rest
  }

  // ---------------------------------------------------------------------
  // The backend: storage bucket and records table
  // ---------------------------------------------------------------------

  /**
   * The hosted backend: `bucket` lists the public URLs of every stored image
   * in upload order; `records` is the table keyed by id, `order` its ids in
   * insertion order, and `nextId` the id the next insert receives.
   */
  class Backend {
    var bucket: seq<string>
    var records: map<RecordId, DiagnosisRecord>
    var order: seq<RecordId>
    var nextId: RecordId

    ghost predicate Valid()
      reads this
    {
      && (forall i, j :: 0 <= i < j < |order| ==> order[i] < order[j])
      && (forall i :: 0 <= i < |order| ==> order[i] < nextId && order[i] in records)
      && (forall id :: id in records ==> id in order && records[id].id == id)
    }

    /** The table's rows in insertion order. */
    function Rows(): (rs: seq<DiagnosisRecord>)
      requires Valid()
      reads this
      ensures |rs| == |order|
      ensures forall i :: 0 <= i < |order| ==> rs[i] == records[order[i]]
    {
      seq(|order|, i requires 0 <= i < |order| && Valid() reads this => records[order[i]])
    }

    constructor ()
      ensures Valid()
      ensures bucket == [] && records == map[] && order == []
    {
      bucket := [];
      records := map[];
      order := [];
      nextId := 0;
    }

    /** The insert of `createDiagnosis`: a new pending row under a fresh id, appended to the table. */
    method Insert(patient: UserId, urls: seq<string>, symptoms: Option<string>, now: int) returns (row: DiagnosisRecord)
      requires Valid()
      modifies this
      ensures Valid()
      ensures row == NewRecord(old(nextId), patient, urls, symptoms, now)
      ensures row.id !in old(records)
      ensures records == old(records)[row.id := row] && order == old(order) + [row.id]
      ensures bucket == old(bucket)
    {
      row := NewRecord(nextId, patient, urls, symptoms, now);
      records := records[nextId := row];
      order := order + [nextId];
      nextId := nextId + 1;
    }

    /**
     * `createDiagnosis`: the images are uploaded first; the first upload
     * error aborts.  Only then is the login checked.  On success one pending
     * row is inserted for the current user, with one URL per file in file
     * order.  Images uploaded before a failure stay in the bucket.
     */
    method CreateDiagnosis(files: seq<File>, symptoms: Option<string>, upload: Uploader,
                           user: Option<UserId>, insertError: Option<string>, now: int)
      returns (r: Result<DiagnosisRecord, ServiceError>)
      requires Valid()
      modifies this
      ensures Valid()
      ensures bucket == old(bucket) + Uploads(files, upload).0
      ensures Uploads(files, upload).1.Some? ==> r == Err(UploadFailed(Uploads(files, upload).1.value))
      ensures Uploads(files, upload).1.None? && user.None? ==> r == Err(NotLoggedIn)
      ensures Uploads(files, upload).1.None? && user.Some? && insertError.Some? ==>
                r == Err(InsertRejected(insertError.value))
      ensures r.Ok? <==> Uploads(files, upload).1.None? && user.Some? && insertError.None?
      ensures r.Err? ==> records == old(records) && order == old(order)
      ensures r.Ok? ==> && r.value == NewRecord(old(nextId), user.value, Uploads(files, upload).0, symptoms, now)
                        && r.value.id !in old(records)
                        && records == old(records)[r.value.id := r.value]
                        && order == old(order) + [r.value.id]
    {
      var urls, failure := UploadImages(files, upload);
      bucket := bucket + urls;
      if failure.Some? {
        return Err(UploadFailed(failure.value));
      }
      if user.None? {
        return Err(NotLoggedIn);
      }
      if insertError.Some? {
        return Err(InsertRejected(insertError.value));
      }
      var row := Insert(user.value, urls, symptoms, now);
      r := Ok(row);
    }

    /**
     * `updateDiagnosis`: with a logged-in user, the row with the given id
     * receives the supplied fields, the doctor and the time, whatever its
     * status.  A missing id, or an update the backend rejects
     * (`updateError`), changes nothing and fails.  Unlike the other errors,
     * `NotLoggedIn` is thrown here rather than returned.
     */
    method UpdateDiagnosis(id: RecordId, updates: Updates, user: Option<UserId>, updateError: Option<string>, now: int)
      returns (r: Result<DiagnosisRecord, ServiceError>)
      requires Valid()
      modifies this
      ensures Valid()
      ensures bucket == old(bucket) && order == old(order) && nextId == old(nextId)
      ensures user.None? ==> r == Err(NotLoggedIn) && records == old(records)
      ensures user.Some? && id !in old(records) ==> r == Err(NoRow) && records == old(records)
      ensures user.Some? && id in old(records) && updateError.Some? ==>
                r == Err(UpdateRejected(updateError.value)) && records == old(records)
      ensures user.Some? && id in old(records) && updateError.None? ==>
                && r == Ok(ApplyUpdate(old(records)[id], updates, user.value, now))
                && records == old(records)[id := r.value]
    {
      if user.None? {
        return Err(NotLoggedIn);
      }
      if id !in records {
        return Err(NoRow);
      }
      if updateError.Some? {
        return Err(UpdateRejected(updateError.value));
      }
      var row := ApplyUpdate(records[id], updates, user.value, now);
      records := records[id := row];
      r := Ok(row);
    }

    /**
     * `getUserDiagnoses`: every visible row, newest first.  A failed query
     * yields no rows and its error.
     */
    method GetUserDiagnoses(queryError: Option<string>) returns (data: seq<DiagnosisRecord>, error: Option<string>)
      requires Valid()
      ensures error == queryError
      ensures NewestFirst(data)
      ensures queryError.Some? ==> data == []
      ensures queryError.None? ==> multiset(data) == multiset(Rows())
    {
      if queryError.Some? {
        return [], queryError;
      }
      data, error := SortNewestFirst(Rows()), None;
      SortIsPermutation(Rows());
    }

    /**
     * `getPendingDiagnoses`: exactly the pending rows, newest first.  A
     * failed query yields no rows and its error.
     */
    method GetPendingDiagnoses(queryError: Option<string>) returns (data: seq<DiagnosisRecord>, error: Option<string>)
      requires Valid()
      ensures error == queryError
      ensures NewestFirst(data)
      ensures forall x :: x in data ==> x.status == Pending
      ensures queryError.Some? ==> data == []
      ensures queryError.None? ==> forall x :: x in data <==> x in Rows() && x.status == Pending
      ensures queryError.None? ==>
                forall x :: multiset(data)[x] == if x.status == Pending then multiset(Rows())[x] else 0
    {
      if queryError.Some? {
        return [], queryError;
      }
      data, error := SortNewestFirst(PendingOnly(Rows())), None;
      SortIsPermutation(PendingOnly(Rows()));
      SameElements(data, PendingOnly(Rows()));
    }
  }

  /** The record created from an upload is listed among the pending ones. */
  method CreatedRecordIsPending(b: Backend, files: seq<File>, symptoms: Option<string>, upload: Uploader,
                                user: UserId, now: int)
    returns (created: Result<DiagnosisRecord, ServiceError>, pending: seq<DiagnosisRecord>)
    requires b.Valid()
    requires forall i :: 0 <= i < |files| ==> upload(files[i]).Ok?
    modifies b
    ensures created.Ok? && created.value in pending
    ensures b.bucket == old(b.bucket) + created.value.imageUrls && |created.value.imageUrls| == |files|
  {
    created := b.CreateDiagnosis(files, symptoms, upload, Some(user), None, now);
    var error;
    pending, error := b.GetPendingDiagnoses(None);
    assert b.Rows()[|b.order| - 1] == created.value;
  }
}
