/** The submission pipeline shared by the intake form's own submit handler
    (src/components/ApplicationForm.tsx) and the submit page's handler
    (src/app/dashboard/submit-application/page.tsx): the upload paths, the
    uploads of the three required documents and the optional one, and the
    single insert of the application row with status `pending`. This module
    states the pipeline as a function of the backend's replies; the two
    handlers run it step by step against a `Backend` and are proved to make
    exactly the calls this function lists. */
module Submission {
  import opened Types
  import opened HostedBackend
  import Strings

  /** A file picked in the browser; only its name matters here. */
  datatype File = File(name: string)

  /** The four file slots of the intake form. */
  datatype UploadedFiles = UploadedFiles(
    driversLicense: Option<File>,
    businessLicense: Option<File>,
    voidCheck: Option<File>,
    additionalDocument: Option<File>)

  const NoFiles: UploadedFiles := UploadedFiles(None, None, None, None)

  /** The handlers dereference the three required slots with `!`: their
      callers must have filled them. */
  predicate RequiredPresent(files: UploadedFiles) {
    files.driversLicense.Some? && files.businessLicense.Some? && files.voidCheck.Some?
  }

  /** The storage folders, one per document. */
  const DriversLicenseFolder: string := "drivers_license"
  const BusinessLicenseFolder: string := "business_license"
  const VoidCheckFolder: string := "void_check"
  const AdditionalFolder: string := "additional"

  /** `${user.id}/${folder}/${Date.now()}_${file.name}`; the file name is
      used as it is. */
  function UploadPath(userId: string, folder: string, now: nat, file: File): string
  {
    userId + "/" + folder + "/" + Strings.Decimal(now) + "_" + file.name
  }

  /** An upload path has three segments, the user, the folder and the
      timestamped name, as long as none of them holds a `/`: the file name
      is not sanitised here, so a `/` in it would add segments. The
      timestamp is the part of the last segment before its first `_`. */
  lemma UploadPathSegments(userId: string, folder: string, now: nat, file: File)
    requires '/' !in userId && '/' !in folder && '/' !in file.name
    ensures Strings.Split(UploadPath(userId, folder, now, file), '/')
         == [userId, folder, Strings.Decimal(now) + "_" + file.name]
    ensures Strings.Split(Strings.Decimal(now) + "_" + file.name, '_')[0] == Strings.Decimal(now)
  {
    var ts := Strings.Decimal(now);
    var last := ts + "_" + file.name;
    assert '/' !in ts && '_' !in ts;
    assert '/' !in last;
    assert UploadPath(userId, folder, now, file) == userId + ['/'] + folder + ['/'] + last;
    Strings.SplitThree(userId, folder, last, '/');
    Strings.SplitField(ts, '_', file.name);
  }

  /** The paths uploaded, in the order the uploads are issued: the three
      required documents, then the additional one when there is one. */
  function UploadPaths(userId: string, files: UploadedFiles, now: nat): (ps: seq<string>)
    requires RequiredPresent(files)
    ensures |ps| == if files.additionalDocument.Some? then 4 else 3
  {
    [UploadPath(userId, DriversLicenseFolder, now, files.driversLicense.value),
     UploadPath(userId, BusinessLicenseFolder, now, files.businessLicense.value),
     UploadPath(userId, VoidCheckFolder, now, files.voidCheck.value)]
    + (if files.additionalDocument.Some?
       then [UploadPath(userId, AdditionalFolder, now, files.additionalDocument.value)]
       else [])
  }

  function UploadCalls(paths: seq<string>): seq<Call>
  {
    seq(|paths|, i requires 0 <= i < |paths| => UploadCall(paths[i]))
  }

  /** The error the whole batch of uploads reports: the first failure in
      issue order, or none when every upload succeeded. */
  function FirstFailure(store: Store, paths: seq<string>): (r: Option<string>)
    ensures r.None? <==> forall i :: 0 <= i < |paths| ==> store.uploadError(paths[i]).None?
  {
    if paths == [] then None
    else if store.uploadError(paths[0]).Some? then store.uploadError(paths[0])
    else FirstFailure(store, paths[1..])
  }

  /** The batch error spelled out for the document uploads: the driver's
      licence first, then the business licence, the void check and the
      additional document. */
  lemma FirstUploadFailure(userId: string, files: UploadedFiles, now: nat, store: Store)
    requires RequiredPresent(files)
    ensures var e1 := store.uploadError(UploadPath(userId, DriversLicenseFolder, now, files.driversLicense.value));
      var e2 := store.uploadError(UploadPath(userId, BusinessLicenseFolder, now, files.businessLicense.value));
      var e3 := store.uploadError(UploadPath(userId, VoidCheckFolder, now, files.voidCheck.value));
      var e4 := if files.additionalDocument.Some?
        then store.uploadError(UploadPath(userId, AdditionalFolder, now, files.additionalDocument.value))
        else None;
      FirstFailure(store, UploadPaths(userId, files, now))
        == if e1.Some? then e1 else if e2.Some? then e2 else if e3.Some? then e3 else e4
  {
    var ps := UploadPaths(userId, files, now);
    var tail := ps[3..];
    assert ps[1..] == [ps[1], ps[2]] + tail;
    assert ps[1..][1..] == [ps[2]] + tail;
    assert ps[1..][1..][1..] == tail;
    var e := store.uploadError;
    assert FirstFailure(store, ps) == if e(ps[0]).Some? then e(ps[0]) else FirstFailure(store, ps[1..]);
    assert FirstFailure(store, ps[1..]) == if e(ps[1]).Some? then e(ps[1]) else FirstFailure(store, ps[1..][1..]);
    assert FirstFailure(store, ps[1..][1..]) == if e(ps[2]).Some? then e(ps[2]) else FirstFailure(store, tail);
    if files.additionalDocument.Some? {
      assert tail[1..] == [];
      assert FirstFailure(store, tail) == if e(tail[0]).Some? then e(tail[0]) else FirstFailure(store, tail[1..]);
    } else {
      assert tail == [];
    }
  }

  /** The upload phase both handlers share: the three required documents
      and then the optional one are uploaded in that order, every upload is
      issued whatever the earlier ones reported, and the public URL of each
      stored path is read back. The reported error is the batch's first
      failure. */
  method UploadDocuments(userId: string, files: UploadedFiles, now: nat, backend: Backend)
      returns (failed: Option<string>, urls: DocumentUrls)
    requires RequiredPresent(files)
    modifies backend
    ensures backend.calls == old(backend.calls) + UploadCalls(UploadPaths(userId, files, now))
    ensures failed == FirstFailure(backend.store, UploadPaths(userId, files, now))
    ensures urls == UploadedUrls(userId, files, now, backend.store)
  {
    var p1 := UploadPath(userId, DriversLicenseFolder, now, files.driversLicense.value);
    var p2 := UploadPath(userId, BusinessLicenseFolder, now, files.businessLicense.value);
    var p3 := UploadPath(userId, VoidCheckFolder, now, files.voidCheck.value);
    var e1 := backend.Upload(p1);
    var e2 := backend.Upload(p2);
    var e3 := backend.Upload(p3);
    var e4: Option<string> := None;
    var additionalUrl: Option<string> := None;
    if files.additionalDocument.Some? {
      var p4 := UploadPath(userId, AdditionalFolder, now, files.additionalDocument.value);
      e4 := backend.Upload(p4);
      additionalUrl := Some(backend.PublicUrl(p4));
    }
    assert backend.calls == old(backend.calls) + UploadCalls(UploadPaths(userId, files, now));
    FirstUploadFailure(userId, files, now, backend.store);
    failed := if e1.Some? then e1 else if e2.Some? then e2 else if e3.Some? then e3 else e4;
    urls := DocumentUrls(backend.PublicUrl(p1), backend.PublicUrl(p2), backend.PublicUrl(p3), additionalUrl);
  }

  /** The public URLs of the uploaded documents; the optional one is absent
      when no additional file was given. */
  datatype DocumentUrls = DocumentUrls(
    driversLicense: string,
    businessLicense: string,
    voidCheck: string,
    additional: Option<string>)

  function UploadedUrls(userId: string, files: UploadedFiles, now: nat, store: Store): (u: DocumentUrls)
    requires RequiredPresent(files)
    ensures u.additional.Some? <==> files.additionalDocument.Some?
  {
    DocumentUrls(
      store.publicUrl(UploadPath(userId, DriversLicenseFolder, now, files.driversLicense.value)),
      store.publicUrl(UploadPath(userId, BusinessLicenseFolder, now, files.businessLicense.value)),
      store.publicUrl(UploadPath(userId, VoidCheckFolder, now, files.voidCheck.value)),
      if files.additionalDocument.Some?
      then Some(store.publicUrl(UploadPath(userId, AdditionalFolder, now, files.additionalDocument.value)))
      else None)
  }

  const UrlColumnNames: set<string> :=
    {"drivers_license_url", "business_license_url", "void_check_url", "additional_doc_url"}

  function OptionalValue(s: Option<string>): (v: Value)
    ensures s.None? <==> v == Null
  {
    if s.Some? then Str(s.value) else Null
  }

  function Lift(fields: map<string, string>): Row
  {
    map k | k in fields :: Str(fields[k])
  }

  /** `{ user_id, ...fields, drivers_license_url, business_license_url,
      void_check_url, additional_doc_url, status: 'pending' }`, built entry
      by entry. A later entry replaces an earlier one of the same name: the
      spread fields replace the signed-in user's `user_id` when they carry
      one, and the URLs and the status, written after the spread, always
      win. */
  function ComposeRow(userId: string, fields: map<string, string>, urls: DocumentUrls): Row
  {
    var spread := if "user_id" in fields then Lift(fields) else Lift(fields)["user_id" := Str(userId)];
    spread["drivers_license_url" := Str(urls.driversLicense)]
          ["business_license_url" := Str(urls.businessLicense)]
          ["void_check_url" := Str(urls.voidCheck)]
          ["additional_doc_url" := OptionalValue(urls.additional)]
          ["status" := Str(StatusName(Pending))]
  }

  /** The inserted row has the user, the spread fields, the four URL
      columns in their fixed order of documents (the optional one null when
      absent) and status `pending`, which comes after the spread and so
      always wins. */
  lemma ComposeRowColumns(userId: string, fields: map<string, string>, urls: DocumentUrls)
    ensures var r := ComposeRow(userId, fields, urls);
      && r.Keys == {"user_id"} + fields.Keys + UrlColumnNames + {"status"}
      && r["status"] == Str(StatusName(Pending))
      && r["drivers_license_url"] == Str(urls.driversLicense)
      && r["business_license_url"] == Str(urls.businessLicense)
      && r["void_check_url"] == Str(urls.voidCheck)
      && r["additional_doc_url"] == OptionalValue(urls.additional)
  {
  }

  /** A spread field keeps its value unless a later entry has its name. */
  lemma ComposeRowField(userId: string, fields: map<string, string>, urls: DocumentUrls, k: string)
    requires k in fields && k !in UrlColumnNames && k != "status"
    ensures ComposeRow(userId, fields, urls)[k] == Str(fields[k])
  {
  }

  /** `user_id` is written before the spread: it is the signed-in user's id
      unless the spread fields carry a `user_id` of their own, which then
      wins. */
  lemma ComposeRowUser(userId: string, fields: map<string, string>, urls: DocumentUrls)
    ensures ComposeRow(userId, fields, urls)["user_id"]
         == if "user_id" in fields then Str(fields["user_id"]) else Str(userId)
  {
  }

  /** The messages a handler reports for the two failures it raises itself. */
  datatype FailureTexts = FailureTexts(notSignedIn: string, uploadPrefix: string)

  /** The calls one submission makes, and the error it ends with (none on
      success). */
  datatype Run = Run(calls: seq<Call>, failure: Option<string>)

  /** A submission by `user` of `fields` and `files` at time `now`:
      without a user nothing is sent; otherwise every upload is issued, and
      the row is inserted only when all of them succeeded. */
  function SubmitRun(user: Option<User>, fields: map<string, string>, files: UploadedFiles, now: nat,
                     store: Store, texts: FailureTexts): Run
    requires RequiredPresent(files)
  {
    if user.None? then Run([], Some(texts.notSignedIn))
    else
      var paths := UploadPaths(user.value.id, files, now);
      var uploads := UploadCalls(paths);
      match FirstFailure(store, paths)
      case Some(m) => Run(uploads, Some(texts.uploadPrefix + m))
      case None =>
        var row := ComposeRow(user.value.id, fields, UploadedUrls(user.value.id, files, now, store));
        Run(uploads + [InsertCall(row)], store.insertError(row))
  }

  /** The pipeline both handlers share, run against the backend: with no
      user nothing is sent; otherwise every upload is issued, a failed upload
      ends the run before the insert, and the row is inserted otherwise. The
      result is the error the handler then reports, if any. */
  method Submit(user: Option<User>, fields: map<string, string>, files: UploadedFiles, now: nat,
                texts: FailureTexts, backend: Backend) returns (failure: Option<string>)
    requires RequiredPresent(files)
    modifies backend
    ensures var run := SubmitRun(user, fields, files, now, backend.store, texts);
      backend.calls == old(backend.calls) + run.calls && failure == run.failure
  {
    if user.None? {
      return Some(texts.notSignedIn);
    }
    var uid := user.value.id;
    var failed, urls := UploadDocuments(uid, files, now, backend);
    if failed.Some? {
      return Some(texts.uploadPrefix + failed.value);
    }
    var row := ComposeRow(uid, fields, urls);
    failure := backend.Insert(row);
  }

  /** Whether a submission inserts its row. */
  predicate Inserts(user: Option<User>, files: UploadedFiles, now: nat, store: Store)
    requires RequiredPresent(files)
  {
    user.Some? && FirstFailure(store, UploadPaths(user.value.id, files, now)).None?
  }

  /** Without a signed-in user no request at all is made. */
  lemma NoUserNoCalls(fields: map<string, string>, files: UploadedFiles, now: nat, store: Store, texts: FailureTexts)
    requires RequiredPresent(files)
    ensures SubmitRun(None, fields, files, now, store, texts) == Run([], Some(texts.notSignedIn))
  {
  }

  /** A submission inserts at most one row, and it does so exactly when a
      user is signed in and every upload succeeded; the insert is then the
      last request, after all the uploads. */
  lemma {:induction false} AtMostOneInsert(user: Option<User>, fields: map<string, string>, files: UploadedFiles,
                                           now: nat, store: Store, texts: FailureTexts)
    requires RequiredPresent(files)
    ensures var run := SubmitRun(user, fields, files, now, store, texts);
      InsertCount(run.calls) == (if Inserts(user, files, now, store) then 1 else 0)
    ensures var run := SubmitRun(user, fields, files, now, store, texts);
      Inserts(user, files, now, store) ==>
        |run.calls| >= 1 && run.calls[|run.calls| - 1] ==
          InsertCall(ComposeRow(user.value.id, fields, UploadedUrls(user.value.id, files, now, store)))
  {
    if user.Some? {
      var paths := UploadPaths(user.value.id, files, now);
      var uploads := UploadCalls(paths);
      assert InsertCount(uploads) == 0;
      if FirstFailure(store, paths).None? {
        var row := ComposeRow(user.value.id, fields, UploadedUrls(user.value.id, files, now, store));
        InsertCountAppend(uploads, [InsertCall(row)]);
        assert InsertCount([InsertCall(row)]) == 1;
      }
    }
  }

  /** A signed-in submission issues every upload first, whatever the replies. */
  lemma UploadsAlwaysIssued(user: User, fields: map<string, string>, files: UploadedFiles, now: nat,
                            store: Store, texts: FailureTexts)
    requires RequiredPresent(files)
    ensures var run := SubmitRun(Some(user), fields, files, now, store, texts);
      var paths := UploadPaths(user.id, files, now);
      |run.calls| >= |paths| && run.calls[..|paths|] == UploadCalls(paths)
  {
    var paths := UploadPaths(user.id, files, now);
    var uploads := UploadCalls(paths);
    assert (uploads + [InsertCall(map[])])[..|paths|] == uploads;
  }

  /** A submission succeeds exactly when a user is signed in, every upload
      succeeded and the insert reported no error; a failed upload is reported
      with the handler's prefix before the store's own message. */
  lemma SubmitOutcome(user: Option<User>, fields: map<string, string>, files: UploadedFiles, now: nat,
                      store: Store, texts: FailureTexts)
    requires RequiredPresent(files)
    ensures var run := SubmitRun(user, fields, files, now, store, texts);
      run.failure.None? <==>
        Inserts(user, files, now, store) &&
        store.insertError(ComposeRow(user.value.id, fields, UploadedUrls(user.value.id, files, now, store))).None?
    ensures var run := SubmitRun(user, fields, files, now, store, texts);
      user.Some? && FirstFailure(store, UploadPaths(user.value.id, files, now)).Some? ==>
        run.failure == Some(texts.uploadPrefix + FirstFailure(store, UploadPaths(user.value.id, files, now)).value)
  {
  }
}
