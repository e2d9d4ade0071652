/** The submit page (src/app/dashboard/submit-application/page.tsx): it
    checks that someone is signed in, then hosts the intake form and gives it
    `handleFinalSubmit`, which uploads the documents, inserts the application
    and reports the outcome through the `submitting`, `error` and `success`
    flags. The timed redirect after success is not part of this model. */
module SubmitApplication {
  import opened Types
  import opened HostedBackend
  import opened Submission

  const NotAuthenticated: string := "User not authenticated"
  const UploadErrorPrefix: string := "File upload error: "
  const DefaultFailure: string := "Failed to submit application."

  /** The failure texts of this handler. */
  const PageTexts: FailureTexts := FailureTexts(NotAuthenticated, UploadErrorPrefix)

  /** `err.message || 'Failed to submit application.'`. */
  function ShownError(message: string): (shown: string)
    ensures shown != ""
    ensures message != "" ==> shown == message
  {
    if message == "" then DefaultFailure else message
  }

  class SubmitApplicationPage {
    var user: Option<User>
    var loading: bool
    var submitting: bool
    var error: Option<string>
    var success: bool
    /** Where the page sent the browser, if anywhere. */
    var redirect: Option<string>

    constructor ()
      ensures user.None? && loading && !submitting && error.None? && !success && redirect.None?
    {
      user := None;
      loading := true;
      submitting := false;
      error := None;
      success := false;
      redirect := None;
    }

    /** `checkAuth`: with nobody signed in, go to the login page and keep
        showing the loader; otherwise remember the user and show the form. */
    method CheckAuth(current: Option<User>)
      modifies this`user, this`loading, this`redirect
      ensures current.None? ==> user == old(user) && loading == old(loading) && redirect == Some("/login")
      ensures current.Some? ==> user == current && !loading && redirect == old(redirect)
    {
      if current.None? {
        redirect := Some("/login");
        return;
      }
      user := current;
      loading := false;
    }

    /** `handleFinalSubmit(mappedData, uploadedFiles)` at time `now`. */
    method HandleFinalSubmit(mapped: map<string, string>, files: UploadedFiles, now: nat, backend: Backend)
      requires RequiredPresent(files)
      modifies this`submitting, this`error, this`success, backend
      ensures var run := SubmitRun(user, mapped, files, now, backend.store, PageTexts);
        && backend.calls == old(backend.calls) + run.calls
        && !submitting
        && (run.failure.None? ==> success && error.None?)
        && (run.failure.Some? ==> success == old(success) && error == Some(ShownError(run.failure.value)))
    {
      submitting := true;
      error := None;
      var failure := Submit(user, mapped, files, now, PageTexts, backend);
      if failure.Some? {
        error := Some(ShownError(failure.value));
      } else {
        success := true;
      }
      submitting := false;
    }
  }
}
