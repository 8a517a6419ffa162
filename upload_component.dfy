/** `UploadComponent`: the track-upload controller. Its signals and fields are
    the fields of a class; every `await` and every `subscribe` callback of the
    source is one atomic step whose outcome is a parameter, and `pending`
    records where the suspended `processFileUpload` will resume. */
module Upload {
  import opened Common
  import Decimal
  import Entities
  import FileValidation
  import UploadService
  import UrlUtils

  /** What `createFileMetadata` derives from a file. */
  datatype FileMetadata = FileMetadata(name: string, duration: real)

  /** `createFileMetadata`: the name without its extension and the size-based
      duration estimate. */
  function CreateFileMetadata(f: FileValidation.AudioFile): FileMetadata {
    FileMetadata(FileValidation.StripExtension(f.name), FileValidation.EstimateDuration(f.size))
  }

  /** The three controls of `uploadForm`; `form.reset()` writes null, which
      reads everywhere in the component exactly like the empty string. */
  datatype UploadForm = UploadForm(title: string, releaseId: string, isrc: string)

  /** `uploadForm.value`: a disabled control is left out of it. */
  datatype FormValue = FormValue(title: string, releaseId: Option<string>, isrc: string)

  /** Where `processFileUpload` is suspended, with what it still holds. */
  datatype Continuation =
    | Idle
    | AwaitingDuration(file: FileValidation.AudioFile)
    | AwaitingSignedUrl(file: FileValidation.AudioFile)
    | AwaitingTransfer(file: FileValidation.AudioFile, signedUrl: string)

  /** The parameters of the signed-URL request. */
  datatype SignedUrlRequest = SignedUrlRequest(filename: string, contentType: string)

  /** The reason a promise rejected with: an `Error` carries a message; anything
      else (an `HttpErrorResponse`, say) does not. */
  datatype Rejection = ErrorWithMessage(message: string) | NonError

  /** How the signed-URL request ends. */
  datatype SignedUrlOutcome = UrlIssued(url: string) | UrlRejected(reason: Rejection)

  /** `CreateTrackDto`. */
  datatype TrackDraft = TrackDraft(title: string, releaseId: int, fileUrl: string, duration: real, isrc: Option<string>)

  /** What `onSubmit` does: set an error, or send a track. */
  datatype SubmitOutcome = Refused(message: string) | Send(draft: TrackDraft)

  /** A snapshot of every field of the component. */
  datatype State = State(
    fileInputEnabled: bool,
    uploading: bool,
    progress: nat,
    uploadSuccess: bool,
    uploadError: string,
    releases: seq<Entities.Release>,
    loadingReleases: bool,
    form: UploadForm,
    releaseIdDisabled: bool,
    uploadedFileUrl: Option<string>,
    uploadedFileMetadata: Option<FileMetadata>,
    fileInput: Option<FileValidation.AudioFile>,
    pending: Continuation)

  const UnauthenticatedMessage: string := "User not authenticated"
  const LoadReleasesMessage: string := "Failed to load releases"
  const UploadFailedMessage: string := "Upload failed"
  const IncompleteMessage: string := "Please fill all required fields and upload a file"
  const InvalidReleaseMessage: string := "Invalid release selection"
  const SaveFailedMessage: string := "Failed to save track information"

  /** `isFormDisabled`. */
  predicate IsFormDisabled(s: State) {
    s.loadingReleases || s.uploading
  }

  /** `uploadForm.invalid`: `title` and `releaseId` are required; a disabled
      control takes no part in validation. */
  predicate FormInvalid(s: State) {
    s.form.title == "" || (!s.releaseIdDisabled && s.form.releaseId == "")
  }

  /** `!!this.uploadedFileUrl`: null and the empty text are both falsy. */
  predicate UrlTruthy(s: State) {
    s.uploadedFileUrl.Some? && s.uploadedFileUrl.value != ""
  }

  /** `canSubmit`, evaluated afresh on the current state. */
  predicate CanSubmit(s: State) {
    !FormInvalid(s) && UrlTruthy(s) && s.uploadedFileMetadata.Some? && !s.uploading
  }

  /** The gate is closed by each of its conditions on its own, and open when
      they all hold. */
  lemma CanSubmitGate(s: State)
    ensures FormInvalid(s) ==> !CanSubmit(s)
    ensures s.uploadedFileUrl.None? || s.uploadedFileMetadata.None? || s.uploading ==> !CanSubmit(s)
    ensures s.uploadedFileUrl == Some("") ==> !CanSubmit(s)
    ensures (!FormInvalid(s) && s.uploadedFileUrl.Some? && s.uploadedFileUrl.value != "" &&
             s.uploadedFileMetadata.Some? && !s.uploading) ==> CanSubmit(s)
  {
  }

  // ---------------------------------------------------------------------
  // `canSubmit` as Angular's `computed` memoises it

  /** The memo of `computed(() => ...)`: nothing yet, or the last value
      together with whether that evaluation read the `uploading` signal and
      the signal's version it saw. `uploading` is the only signal in the
      expression; the form, the URL and the metadata are plain fields, which
      the memo cannot observe. */
  datatype Memo = Unset | Cached(value: bool, readsUploading: bool, version: nat)

  /** `&&` stops at the first false operand, so the expression reaches
      `uploading()` only when the three plain operands are true. */
  predicate ReachesUploading(s: State) {
    !FormInvalid(s) && UrlTruthy(s) && s.uploadedFileMetadata.Some?
  }

  /** Reading `canSubmit()` as written, with the memo `m`, on the state `s`,
      while the `uploading` signal is at version `version`: the expression is
      evaluated again only when nothing is cached or a signal it read has
      changed since; otherwise the cached value comes back. Returns the value
      read and the new memo. */
  function ReadCanSubmit(m: Memo, s: State, version: nat): (r: (bool, Memo))
    ensures r.1.Cached? && r.0 == r.1.value
    ensures m.Unset? || (m.readsUploading && m.version != version) ==> r.0 == CanSubmit(s)
    ensures m.Cached? && !(m.readsUploading && m.version != version) ==> r == (m.value, m)
  {
    if m.Unset? || (m.readsUploading && m.version != version) then
      (CanSubmit(s), Cached(CanSubmit(s), ReachesUploading(s), version))
    else (m.value, m)
  }

  /** As written, one read on an invalid form freezes `canSubmit` at false:
      that evaluation read no signal, so no later change can make it run
      again, whatever the form, the file and `uploading` become. */
  lemma {:induction false} CanSubmitFrozen(s: State, later: seq<State>, versions: seq<nat>, v: nat)
    requires FormInvalid(s) && |later| == |versions|
    ensures ReadsAfter(ReadCanSubmit(Unset, s, v).1, later, versions) == Cached(false, false, v)
    decreases |later|
  {
    if later != [] {
      CanSubmitFrozen(s, later[..|later| - 1], versions[..|versions| - 1], v);
    }
  }

  /** The memo after reading `canSubmit()` once on each of `states` in turn. */
  function ReadsAfter(m: Memo, states: seq<State>, versions: seq<nat>): Memo
    requires |states| == |versions|
  {
    if states == [] then m
    else ReadCanSubmit(ReadsAfter(m, states[..|states| - 1], versions[..|versions| - 1]),
                       states[|states| - 1], versions[|versions| - 1]).1
  }

  /** The state right after an upload of "song.mp3", before a release is
      picked: the title is filled in, the releaseId is still empty. */
  function UploadedNoRelease(): (s: State)
    ensures Consistent(s) && FormInvalid(s)
  {
    Initial().(form := UploadForm("song", "", ""), uploadedFileUrl := Some("https://store/song.mp3"),
               uploadedFileMetadata := Some(FileMetadata("song", 120.0)), fileInputEnabled := false)
  }

  /** The input that shows it: the user presses submit before picking a
      release (one read, false), then picks release 7. The gate is now open,
      yet `onSubmit` reads false again, however `uploading` has moved. */
  lemma StaleCanSubmitExample(v1: nat, v2: nat)
    ensures var s := UploadedNoRelease();
            var t := s.(form := s.form.(releaseId := "7"));
            Consistent(t) && CanSubmit(t) && !ReadCanSubmit(ReadCanSubmit(Unset, s, v1).1, t, v2).0
  {
  }

  /** The other direction: a read on a ready state caches true, and while
      `uploading` keeps its version a later read still says true after the
      form has been reset and the file dropped. */
  lemma StaleOpenGateExample(v: nat)
    ensures var s := UploadedNoRelease().(form := UploadForm("song", "7", ""));
            var t := s.(form := UploadForm("", "", ""), uploadedFileUrl := None, uploadedFileMetadata := None);
            CanSubmit(s) && !CanSubmit(t) && ReadCanSubmit(ReadCanSubmit(Unset, s, v).1, t, v).0
  {
  }

  /** What the component keeps true between steps: the releaseId control is
      disabled exactly while the form is, the progress is a percentage, and
      `uploading` is only set while an upload is suspended. */
  predicate Consistent(s: State) {
    && s.releaseIdDisabled == IsFormDisabled(s)
    && s.progress <= 100
    && (s.uploading ==> !s.pending.Idle?)
  }

  function ValueOf(s: State): (v: FormValue)
    ensures v.title == s.form.title && v.isrc == s.form.isrc
    ensures v.releaseId.Some? <==> !s.releaseIdDisabled
    ensures v.releaseId.Some? ==> v.releaseId.value == s.form.releaseId
  {
    FormValue(s.form.title, if s.releaseIdDisabled then None else Some(s.form.releaseId), s.form.isrc)
  }

  /** `parseReleaseId`: `parseInt(value, 10)`, NaN as `None`. A missing value is
      read as the text "undefined", which has no digits. */
  function ParseReleaseId(value: Option<string>): (r: Option<int>)
    ensures value.None? ==> r.None?
    ensures value.Some? ==> r == Decimal.ParseInt(value.value)
  {
    if value.Some? then Decimal.ParseInt(value.value) else None
  }

  /** The message of a rejection, or 'Upload failed' when it is not an `Error`. */
  function ErrorMessage(reason: Rejection): (m: string)
    ensures reason.ErrorWithMessage? ==> m == reason.message
    ensures reason.NonError? ==> m == UploadFailedMessage
  {
    if reason.ErrorWithMessage? then reason.message else UploadFailedMessage
  }

  /** `createTrackData`: the ISRC is sent only when it is not empty. */
  function CreateTrackData(v: FormValue, releaseId: int, fileUrl: string, metadata: FileMetadata): (d: TrackDraft)
    ensures d.title == v.title && d.releaseId == releaseId
    ensures d.fileUrl == fileUrl && d.duration == metadata.duration
    ensures d.isrc.Some? <==> v.isrc != ""
    ensures d.isrc.Some? ==> d.isrc.value == v.isrc
  {
    TrackDraft(v.title, releaseId, fileUrl, metadata.duration, if v.isrc == "" then None else Some(v.isrc))
  }

  /** `onSubmit`'s decision: the gate first, then the release id, then the draft. */
  function SubmitDecision(s: State): (o: SubmitOutcome)
    ensures o == Refused(IncompleteMessage) <==> !CanSubmit(s)
    ensures o == Refused(InvalidReleaseMessage) <==>
              CanSubmit(s) && ParseReleaseId(ValueOf(s).releaseId).None?
    ensures o.Send? <==> CanSubmit(s) && ParseReleaseId(ValueOf(s).releaseId).Some?
    ensures o.Send? ==>
              && o.draft.fileUrl == s.uploadedFileUrl.value
              && o.draft.duration == s.uploadedFileMetadata.value.duration
              && o.draft.title == s.form.title
              && Some(o.draft.releaseId) == ParseReleaseId(ValueOf(s).releaseId)
              && (o.draft.isrc.Some? <==> s.form.isrc != "")
  {
    if !CanSubmit(s) then Refused(IncompleteMessage)
    else
      var releaseId := ParseReleaseId(ValueOf(s).releaseId);
      if releaseId.None? then Refused(InvalidReleaseMessage)
      else Send(CreateTrackData(ValueOf(s), releaseId.value, s.uploadedFileUrl.value, s.uploadedFileMetadata.value))
  }

  /** While the releases are still loading the releaseId control is disabled,
      so the form value has no releaseId and even a ready form is refused as
      an invalid release selection. */
  lemma SubmitWhileLoadingReleases(s: State)
    requires Consistent(s) && s.loadingReleases && CanSubmit(s)
    ensures SubmitDecision(s) == Refused(InvalidReleaseMessage)
  {
  }

  /** A ready form whose releaseId is the numeral of a release id sends a track
      for that release, with the uploaded file and its estimated duration. */
  lemma SubmitNumericReleaseId(s: State, id: nat)
    requires Consistent(s) && CanSubmit(s) && !s.loadingReleases
    requires s.form.releaseId == Decimal.NatToString(id)
    ensures SubmitDecision(s) == Send(TrackDraft(
              s.form.title, id, s.uploadedFileUrl.value, s.uploadedFileMetadata.value.duration,
              if s.form.isrc == "" then None else Some(s.form.isrc)))
  {
    assert Decimal.NatToString(id) + [] == Decimal.NatToString(id);
    Decimal.ParseIntOfNumeral(id, []);
  }

  /** `parseInt` also accepts a releaseId with text after its digits, so
      "12abc" selects release 12. */
  lemma SubmitReleaseIdWithSuffix(s: State, id: nat, rest: string)
    requires Consistent(s) && CanSubmit(s) && !s.loadingReleases
    requires rest != [] && !Decimal.IsDigit(rest[0])
    requires s.form.releaseId == Decimal.NatToString(id) + rest
    ensures SubmitDecision(s).Send? && SubmitDecision(s).draft.releaseId == id
  {
    Decimal.ParseIntOfNumeral(id, rest);
  }

  /** The component before `ngOnInit`. */
  function Initial(): (s: State)
    ensures Consistent(s) && !CanSubmit(s)
    ensures s.fileInputEnabled && s.pending.Idle? && s.progress == 0
  {
    State(true, false, 0, false, "", [], false, UploadForm("", "", ""), false, None, None, None, Idle)
  }

  class UploadComponent {
    var fileInputEnabled: bool
    var uploading: bool
    var progress: nat
    var uploadSuccess: bool
    var uploadError: string
    var releases: seq<Entities.Release>
    var loadingReleases: bool
    var form: UploadForm
    var releaseIdDisabled: bool
    var uploadedFileUrl: Option<string>
    var uploadedFileMetadata: Option<FileMetadata>
    /** The file the file input shows; clearing `input.value` empties it. */
    var fileInput: Option<FileValidation.AudioFile>
    var pending: Continuation

    function View(): State
      reads this
    {
      State(fileInputEnabled, uploading, progress, uploadSuccess, uploadError, releases,
            loadingReleases, form, releaseIdDisabled, uploadedFileUrl, uploadedFileMetadata,
            fileInput, pending)
    }

    predicate Valid()
      reads this
    {
      Consistent(View())
    }

    constructor ()
      ensures Valid() && View() == Initial()
    {
      fileInputEnabled := true;
      uploading := false;
      progress := 0;
      uploadSuccess := false;
      uploadError := "";
      releases := [];
      loadingReleases := false;
      form := UploadForm("", "", "");
      releaseIdDisabled := false;
      uploadedFileUrl := None;
      uploadedFileMetadata := None;
      fileInput := None;
      pending := Idle;
    }

    /** `updateFormControlsBasedOnState`: the releaseId control follows `isFormDisabled`. */
    method UpdateFormControls()
      modifies this
      ensures View() == old(View()).(releaseIdDisabled := IsFormDisabled(old(View())))
    {
      releaseIdDisabled := loadingReleases || uploading;
    }

    /** `resetUploadState`. */
    method ResetUploadState()
      requires Valid()
      modifies this
      ensures Valid()
      ensures View() == old(View()).(uploading := false, uploadSuccess := false, progress := 0,
                                     releaseIdDisabled := old(loadingReleases))
    {
      uploading := false;
      uploadSuccess := false;
      progress := 0;
      UpdateFormControls();
    }

    /** `ngOnInit`: start loading the signed-in artist's releases, then reset the
        upload state. Returns the artist id whose releases are requested, or
        `None` when nobody is signed in. */
    method NgOnInit(user: Option<Entities.User>) returns (request: Option<int>)
      requires Valid()
      modifies this
      ensures Valid()
      ensures user.Some? ==> request == Some(user.value.id)
      ensures user.Some? ==>
        View() == old(View()).(loadingReleases := true, releaseIdDisabled := true,
                               uploading := false, uploadSuccess := false, progress := 0)
      ensures user.None? ==> request == None
      ensures user.None? ==>
        View() == old(View()).(uploadError := UnauthenticatedMessage, loadingReleases := false,
                               releaseIdDisabled := false, uploading := false,
                               uploadSuccess := false, progress := 0)
    {
      request := LoadReleases(user);
      ResetUploadState();
    }

    /** `loadReleases`, up to the point where it subscribes. */
    method LoadReleases(user: Option<Entities.User>) returns (request: Option<int>)
      requires Valid()
      modifies this
      ensures Valid()
      ensures user.Some? ==> request == Some(user.value.id)
      ensures user.Some? ==>
        View() == old(View()).(loadingReleases := true, releaseIdDisabled := true)
      ensures user.None? ==> request == None
      ensures user.None? ==>
        View() == old(View()).(uploadError := UnauthenticatedMessage, loadingReleases := false,
                               releaseIdDisabled := old(uploading))
    {
      loadingReleases := true;
      UpdateFormControls();
      if user.None? {
        HandleLoadReleasesError(UnauthenticatedMessage);
        request := None;
        return;
      }
      request := Some(user.value.id);
    }

    /** The `subscribe` callbacks of `loadReleases`. */
    method OnReleasesLoaded(response: Response<seq<Entities.Release>>)
      requires Valid()
      modifies this
      ensures Valid()
      ensures response.Next? ==>
        View() == old(View()).(releases := response.value, loadingReleases := false,
                               releaseIdDisabled := old(uploading))
      ensures response.Failed? ==>
        View() == old(View()).(uploadError := LoadReleasesMessage, loadingReleases := false,
                               releaseIdDisabled := old(uploading))
    {
      if response.Next? {
        releases := response.value;
        loadingReleases := false;
        UpdateFormControls();
      } else {
        HandleLoadReleasesError(LoadReleasesMessage);
      }
    }

    /** `handleLoadReleasesError`. */
    method HandleLoadReleasesError(message: string)
      requires Consistent(View().(releaseIdDisabled := IsFormDisabled(View())))
      modifies this
      ensures Valid()
      ensures View() == old(View()).(uploadError := message, loadingReleases := false,
                                     releaseIdDisabled := old(uploading))
    {
      uploadError := message;
      loadingReleases := false;
      UpdateFormControls();
    }

    /** `clearErrors`. */
    method ClearErrors()
      requires Valid()
      modifies this
      ensures Valid()
      ensures View() == old(View()).(uploadError := "", uploadSuccess := false)
    {
      uploadError := "";
      uploadSuccess := false;
      UpdateFormControls();
    }

    /** `handleFileError`: show the message and clear the file input. */
    method HandleFileError(message: string)
      requires Valid()
      modifies this
      ensures Valid()
      ensures View() == old(View()).(uploadError := message, fileInput := None)
    {
      uploadError := message;
      fileInput := None;
    }

    /** `onFileSelected`, up to the first `await` of `processFileUpload`.
        `selection` is the file the input now holds, if any. */
    method OnFileSelected(selection: Option<FileValidation.AudioFile>)
      requires Valid() && pending.Idle?
      modifies this
      ensures Valid()
      ensures selection.None? ==>
        View() == old(View()).(uploadError := "", uploadSuccess := false, progress := 0,
                               fileInput := None)
      ensures selection.Some? && !FileValidation.ValidateAudioFile(selection.value).isValid ==>
        View() == old(View()).(uploadError := FileValidation.ValidateAudioFile(selection.value).error.value,
                               uploadSuccess := false, progress := 0, fileInput := None)
      ensures selection.Some? && FileValidation.ValidateAudioFile(selection.value).isValid ==>
        View() == old(View()).(uploadError := "", uploadSuccess := false, progress := 0,
                               fileInput := selection, uploading := true, releaseIdDisabled := true,
                               pending := AwaitingDuration(selection.value))
    {
      fileInput := selection;
      ClearErrors();
      progress := 0;
      if selection.None? {
        return;
      }
      var file := selection.value;
      var validation := FileValidation.ValidateAudioFile(file);
      if !validation.isValid {
        HandleFileError(validation.error.value);
        return;
      }
      StartUpload(file);
    }

    /** A valid file starts the upload: `uploading` is set, the release
        control is disabled, and the duration estimate is awaited. */
    method StartUpload(file: FileValidation.AudioFile)
      requires Valid() && pending.Idle?
      modifies this
      ensures Valid()
      ensures View() == old(View()).(uploading := true, releaseIdDisabled := true, pending := AwaitingDuration(file))
    {
      uploading := true;
      UpdateFormControls();
      pending := AwaitingDuration(file);
    }

    /** The duration estimate resolves: record the metadata, put the derived
        name into the title, and request a signed URL. */
    method OnDurationEstimated() returns (request: SignedUrlRequest)
      requires Valid() && pending.AwaitingDuration?
      modifies this
      ensures Valid()
      ensures request == SignedUrlRequest(old(pending).file.name, old(pending).file.mimeType)
      ensures var m := CreateFileMetadata(old(pending).file);
        View() == old(View()).(uploadedFileMetadata := Some(m), form := old(form).(title := m.name),
                               pending := AwaitingSignedUrl(old(pending).file))
    {
      var file := pending.file;
      request := SignedUrlRequest(file.name, file.mimeType);
      RecordMetadata(CreateFileMetadata(file));
    }

    /** `this.uploadedFileMetadata = metadata; this.updateFormTitle(metadata.name)`,
        after which the signed URL is awaited. */
    method RecordMetadata(metadata: FileMetadata)
      requires Valid() && pending.AwaitingDuration?
      modifies this
      ensures Valid()
      ensures View() == old(View()).(uploadedFileMetadata := Some(metadata), form := old(form).(title := metadata.name),
                                     pending := AwaitingSignedUrl(old(pending).file))
    {
      uploadedFileMetadata := Some(metadata);
      form := form.(title := metadata.name);
      pending := AwaitingSignedUrl(pending.file);
    }

    /** The signed-URL request settles: start the transfer, or report the
        failure and leave the upload (the `catch` and `finally` blocks). */
    method OnSignedUrl(outcome: SignedUrlOutcome)
      requires Valid() && pending.AwaitingSignedUrl?
      modifies this
      ensures Valid()
      ensures outcome.UrlIssued? ==>
        View() == old(View()).(pending := AwaitingTransfer(old(pending).file, outcome.url))
      ensures outcome.UrlRejected? ==>
        View() == old(View()).(uploadError := ErrorMessage(outcome.reason), uploading := false,
                               releaseIdDisabled := old(loadingReleases), pending := Idle)
    {
      if outcome.UrlIssued? {
        pending := AwaitingTransfer(pending.file, outcome.url);
      } else {
        uploadError := ErrorMessage(outcome.reason);
        FinishUpload();
      }
    }

    /** A progress event of the transfer; the browser never reports more bytes
        sent than the total of a length-computable event. */
    method OnUploadProgress(e: UploadService.ProgressEvent)
      requires Valid() && pending.AwaitingTransfer? && (e.lengthComputable ==> e.loaded <= e.total)
      modifies this
      ensures Valid()
      ensures UploadService.ProgressWrite(e).None? ==> View() == old(View())
      ensures UploadService.ProgressWrite(e).Some? ==>
        View() == old(View()).(progress := UploadService.ProgressWrite(e).value)
    {
      var w := UploadService.ProgressWrite(e);
      if w.Some? {
        UploadService.PercentBounds(e.loaded, e.total);
        progress := w.value;
      }
    }

    /** The transfer settles: on success keep the URL without its query and
        lock the file input; on failure show the rejection's message. Either
        way `uploading` ends. The metadata and title set before are kept. */
    method OnTransferSettled(c: UploadService.Completion)
      requires Valid() && pending.AwaitingTransfer?
      modifies this
      ensures Valid()
      ensures UploadService.Settle(c).Resolved? ==>
        View() == old(View()).(uploadedFileUrl := Some(UrlUtils.CleanUrl(old(pending).signedUrl)),
                               fileInputEnabled := false, uploading := false,
                               releaseIdDisabled := old(loadingReleases), pending := Idle)
      ensures UploadService.Settle(c).Rejected? ==>
        View() == old(View()).(uploadError := UploadService.Settle(c).message, uploading := false,
                               releaseIdDisabled := old(loadingReleases), pending := Idle)
    {
      var settlement := UploadService.Settle(c);
      if settlement.Resolved? {
        uploadedFileUrl := Some(UrlUtils.CleanUrl(pending.signedUrl));
        fileInputEnabled := false;
        UpdateFormControls();
      } else {
        uploadError := settlement.message;
      }
      FinishUpload();
    }

    /** The `finally` block of `processFileUpload`. */
    method FinishUpload()
      requires Consistent(View().(pending := Idle, uploading := false, releaseIdDisabled := loadingReleases))
      modifies this
      ensures Valid()
      ensures View() == old(View()).(uploading := false, releaseIdDisabled := old(loadingReleases),
                                     pending := Idle)
    {
      uploading := false;
      UpdateFormControls();
      pending := Idle;
    }

    /** `onSubmit`: returns the track to create, if any. */
    method OnSubmit() returns (draft: Option<TrackDraft>)
      requires Valid()
      modifies this
      ensures Valid()
      ensures SubmitDecision(old(View())).Refused? ==>
        draft.None? && View() == old(View()).(uploadError := SubmitDecision(old(View())).message)
      ensures SubmitDecision(old(View())).Send? ==>
        draft == Some(SubmitDecision(old(View())).draft) && View() == old(View())
    {
      if !CanSubmit(View()) {
        uploadError := IncompleteMessage;
        return None;
      }
      var value := ValueOf(View());
      var releaseId := ParseReleaseId(value.releaseId);
      if releaseId.None? {
        uploadError := InvalidReleaseMessage;
        return None;
      }
      draft := Some(CreateTrackData(value, releaseId.value, uploadedFileUrl.value, uploadedFileMetadata.value));
    }

    /** The `subscribe` callbacks of `submitTrack`. */
    method OnSubmitSettled(succeeded: bool)
      requires Valid()
      modifies this
      ensures Valid()
      ensures succeeded ==>
        View() == old(View()).(uploadSuccess := true, form := UploadForm("", "", ""),
                               uploadedFileUrl := None, uploadedFileMetadata := None)
      ensures !succeeded ==> View() == old(View()).(uploadError := SaveFailedMessage)
    {
      if succeeded {
        HandleSubmitSuccess();
      } else {
        uploadError := SaveFailedMessage;
      }
    }

    /** `handleSubmitSuccess`: the whole form is reset, releaseId included, and
        the file input stays locked. */
    method HandleSubmitSuccess()
      requires Valid()
      modifies this
      ensures Valid()
      ensures View() == old(View()).(uploadSuccess := true, form := UploadForm("", "", ""),
                                     uploadedFileUrl := None, uploadedFileMetadata := None)
    {
      uploadSuccess := true;
      form := UploadForm("", "", "");
      uploadedFileUrl := None;
      uploadedFileMetadata := None;
    }

    /** `reset`: the error message is kept, and an upload still suspended keeps
        running. */
    method Reset()
      requires Valid()
      modifies this
      ensures Valid() && !CanSubmit(View())
      ensures View() == old(View()).(uploading := false, uploadSuccess := false, progress := 0,
                                     form := UploadForm("", "", ""), uploadedFileUrl := None,
                                     uploadedFileMetadata := None, fileInputEnabled := true,
                                     releaseIdDisabled := old(loadingReleases))
    {
      ResetUploadState();
      form := UploadForm("", "", "");
      uploadedFileUrl := None;
      uploadedFileMetadata := None;
      fileInputEnabled := true;
      UpdateFormControls();
    }
  }
}
