# music-dist: the upload controller and its helpers, in Dafny

This project models the parts of the music-dist dashboard that hold real logic. The rest of that Angular application wires components to HttpClient, the Router and Chart.js.

- **The track-upload controller (`UploadComponent`).** A class whose fields are the component's signals, its two plain fields (`uploadedFileUrl`, `uploadedFileMetadata`) and its three-control form. Each `await` and each `subscribe` callback is one atomic method. The outcome of that step is a parameter: the duration estimate, the signed URL, the transfer's completion, the releases response and the track-creation response. A `pending` field records where the suspended `processFileUpload` will resume.
- **Audio-file validation (`FileValidationService`).** The MIME-type-or-extension allow-list, the 50 MiB ceiling checked after the type, the regex that strips the last extension, and the size-based duration estimate, in exact arithmetic.
- **Transfer progress and outcome (`UploadService.uploadFile`).** The `Math.round(loaded / total * 100)` percentage and how the request settles. A status in the Successful class of section 15.3 of RFC 9110 (2xx) resolves; any other status, or a network error, rejects.
- **Small pure helpers.**
  - `UrlUtilsService.cleanUrl`, which cuts a URL at the query delimiter of section 3.4 of RFC 3986. `UploadComponent.cleanUploadUrl` is the same expression, so the component's model calls `UrlUtils.CleanUrl`.
  - `TrackItemComponent.formatDuration`.
  - `ReleaseStatsService.calculateStats`.
- **Dashboard figures (`DashboardComponent`).** The three figures it stores, plus the data its three chart builders compute: top tracks (an in-place sort on an array), revenue per release and a twelve-month series. The clock is a (year, month) parameter.
- **Admin page (`AdminComponent`, `AdminService`).** The artist list and its load/error state, the expansion toggle, the confirm-gated deletes with their list pruning, the artist filter and the per-artist totals.
- **Login and register forms.** The form rules, and the `loading`/`error`/`success` transitions of `submit` and its callbacks.

Records follow what the code reads, not the declared interfaces. A release may carry `tracks` and is compared with upper-case statuses. A royalty carries `trackId`, `amount` and a `"YYYY-MM"` `period`.

Four behaviours of the code that a reader might not expect, all modelled as written:

- the progress is rounded, not floored;
- a failed upload keeps the metadata and the title it already wrote;
- `reset()` does not clear `uploadError`;
- a successful submit resets the whole form, the release included, and leaves the file input locked.

## Model

| member | source | states |
|---|---|---|
| `Upload.CanSubmitGate` | src/app/routes/upload/upload.component.ts:55-60 | the submit gate is closed when the form is invalid, the URL is null or empty, the metadata is null, or an upload is running, and open when none of these holds |
| `Upload.SubmitDecision` | src/app/routes/upload/upload.component.ts:221-252 | `onSubmit` refuses with 'Please fill all required fields and upload a file' exactly when the gate is closed, and with 'Invalid release selection' exactly when `parseInt` finds no digits. Otherwise the draft carries the URL, the metadata's duration, the title and the parsed release id, and the ISRC exactly when it is not empty |
| `Upload.SubmitWhileLoadingReleases` | src/app/routes/upload/upload.component.ts:97-106 | while releases load, the releaseId control is disabled and so missing from the form value, and even a ready form is refused as an invalid release selection |
| `Upload.SubmitNumericReleaseId` | src/app/routes/upload/upload.component.ts:239-252 | a releaseId written as a decimal numeral sends exactly the draft for that release, with the uploaded URL and the estimated duration |
| `Upload.SubmitReleaseIdWithSuffix` | src/app/routes/upload/upload.component.ts:239-242 | `parseInt` also accepts digits followed by other text ("12abc" selects 12) |
| `Upload.ParseReleaseId` | src/app/routes/upload/upload.component.ts:239-242 | a missing (disabled) releaseId gives no id; a present one gives what `parseInt(value, 10)` gives |
| `Upload.CreateTrackData` | src/app/routes/upload/upload.component.ts:244-252 | the draft carries the title, the release id, the URL and the duration, and the ISRC exactly when it is not empty |
| `Upload.ErrorMessage` | src/app/routes/upload/upload.component.ts:187-189 | an `Error` rejection shows its message; any other rejection shows 'Upload failed' |
| `Upload.ValueOf` | src/app/routes/upload/upload.component.ts:227 | the form value leaves out the releaseId exactly when its control is disabled |
| `Upload.Initial` | src/app/routes/upload/upload.component.ts:43-78 | the starting state is consistent, cannot submit, has the file input enabled and progress 0 |
| `Upload.ReadCanSubmit` | src/app/routes/upload/upload.component.ts:55-60 | as written, `canSubmit()` re-evaluates only when nothing is cached or the `uploading` signal it last read has changed; otherwise it returns the cached value |
| `Upload.CanSubmitFrozen` | src/app/routes/upload/upload.component.ts:55-60 | one read on an invalid form caches false with no signal read, and every later read returns that false |
| `Upload.StaleCanSubmitExample` | src/app/routes/upload/upload.component.ts:55-60 | the gate is open after a release is picked, yet the memoised `canSubmit()` still reads false |
| `Upload.StaleOpenGateExample` | src/app/routes/upload/upload.component.ts:55-60 | a cached true survives a form reset and dropping the file while `uploading` keeps its version |
| `Upload.UploadComponent.constructor` | src/app/routes/upload/upload.component.ts:43-78 | the fields start at their declared initial values |
| `Upload.UploadComponent.UpdateFormControls` | src/app/routes/upload/upload.component.ts:97-106 | afterwards the releaseId control is disabled exactly when `loadingReleases` or `uploading` is true; nothing else changes |
| `Upload.UploadComponent.ResetUploadState` | src/app/routes/upload/upload.component.ts:90-95 | `uploading` and `uploadSuccess` false, progress 0, the control follows the gate, nothing else changes |
| `Upload.UploadComponent.NgOnInit` | src/app/routes/upload/upload.component.ts:80-83 | requests the signed-in artist's releases with loading on, or sets 'User not authenticated' when nobody is signed in; then resets the upload state |
| `Upload.UploadComponent.LoadReleases` | src/app/routes/upload/upload.component.ts:108-118 | loading on and the control disabled, with the artist's id requested; without a user, 'User not authenticated' and loading off |
| `Upload.UploadComponent.OnReleasesLoaded` | src/app/routes/upload/upload.component.ts:120-131 | on success the releases are replaced and loading ends; on failure 'Failed to load releases' is shown and loading ends |
| `Upload.UploadComponent.HandleLoadReleasesError` | src/app/routes/upload/upload.component.ts:134-138 | sets the message, clears loading and updates the control |
| `Upload.UploadComponent.ClearErrors` | src/app/routes/upload/upload.component.ts:161-165 | the error becomes '' and the success flag false, nothing else |
| `Upload.UploadComponent.HandleFileError` | src/app/routes/upload/upload.component.ts:167-170 | shows the message and empties the file input, nothing else |
| `Upload.UploadComponent.OnFileSelected` | src/app/routes/upload/upload.component.ts:140-154 | always clears the error and the success flag and zeroes the progress. With no file nothing else changes. A rejected file shows the validator's message and empties the input, leaving `uploading`, the URL, the metadata and the file input's enabled flag alone. A valid file starts the upload |
| `Upload.UploadComponent.StartUpload` | src/app/routes/upload/upload.component.ts:172-174 | a valid file sets `uploading`, disables the release control and awaits the duration estimate. Nothing else changes |
| `Upload.UploadComponent.OnDurationEstimated` | src/app/routes/upload/upload.component.ts:177-181 | records the metadata (stripped name, estimated duration), patches the title with the name and requests a signed URL for the file's name and MIME type |
| `Upload.UploadComponent.RecordMetadata` | src/app/routes/upload/upload.component.ts:177-179 | stores the metadata, puts its name into the title and awaits the signed URL. Nothing else changes |
| `Upload.UploadComponent.OnSignedUrl` | src/app/routes/upload/upload.component.ts:181-193 | an issued URL starts the transfer; a rejection shows its message and ends the upload, keeping the metadata and title already written |
| `Upload.UploadComponent.OnUploadProgress` | src/app/core/services/upload.service.ts:23-27 | the progress becomes the rounded percentage of a length-computable event and is otherwise unchanged |
| `Upload.UploadComponent.OnTransferSettled` | src/app/routes/upload/upload.component.ts:182-193 | on success the URL is the signed URL before its first `?` and the file input is locked. On failure the rejection's message is shown and the file input is unchanged. Either way `uploading` ends and the metadata stays |
| `Upload.UploadComponent.FinishUpload` | src/app/routes/upload/upload.component.ts:190-193 | `uploading` false and the control re-evaluated |
| `Upload.UploadComponent.OnSubmit` | src/app/routes/upload/upload.component.ts:221-237 | sets the refusal message and sends nothing, or sends the decided draft and changes nothing |
| `Upload.UploadComponent.OnSubmitSettled` | src/app/routes/upload/upload.component.ts:254-265 | success runs `handleSubmitSuccess`; failure shows 'Failed to save track information' and keeps the URL and metadata |
| `Upload.UploadComponent.HandleSubmitSuccess` | src/app/routes/upload/upload.component.ts:267-272 | success shown, the whole form (releaseId included) emptied, URL and metadata cleared, file input left as it was |
| `Upload.UploadComponent.Reset` | src/app/routes/upload/upload.component.ts:274-281 | progress 0, not uploading, no success, form emptied, URL and metadata null, file input enabled, gate closed, and `uploadError` untouched |
| `FileValidation.Extension` | src/app/core/services/file-validation.service.ts:65-67 | a name without a dot yields the whole lowered name; otherwise the suffix from the last dot, which has no further dot |
| `FileValidation.ValidateAudioFile` | src/app/core/services/file-validation.service.ts:34-50 | valid exactly when the type check passes and the size is at most 52,428,800 bytes; valid results carry no error, invalid ones a non-empty one |
| `FileValidation.TypeCheckFirst` | src/app/core/services/file-validation.service.ts:35-40 | a file failing the type check gets the type message whatever its size |
| `FileValidation.SizeBoundary` | src/app/core/services/file-validation.service.ts:42-47 | exactly 52,428,800 bytes passes, one more byte gets 'File size must be less than 50MB' |
| `FileValidation.NoDotNeedsMimeType` | src/app/core/services/file-validation.service.ts:64-73 | a name without a dot passes only on its MIME type |
| `FileValidation.ExtensionIgnoresCase` | src/app/core/services/file-validation.service.ts:65-71 | "Track.MP3" with no MIME type passes on its lowered extension |
| `FileValidation.StripExtension` | src/app/core/services/file-validation.service.ts:60-62 | the result is a prefix of the name: the name itself, or the name cut at a dot followed by a non-empty run without `/` or `.` to the end |
| `FileValidation.StripExtensionRemovesRun` | src/app/core/services/file-validation.service.ts:60-62 | a stem, a dot and such a run lose exactly the dot and the run |
| `FileValidation.StripExtensionExample1` | src/app/core/services/file-validation.service.ts:60-62 | "a.tar.gz" becomes "a.tar" |
| `FileValidation.StripExtensionExample2` | src/app/core/services/file-validation.service.ts:60-62 | "file." is unchanged |
| `FileValidation.StripExtensionExample3` | src/app/core/services/file-validation.service.ts:60-62 | "a.b/c" is unchanged |
| `FileValidation.EstimateDuration` | src/app/core/services/file-validation.service.ts:52-58 | the estimate is non-negative and equals size × 60 / 1,048,576 |
| `FileValidation.TwoMebibytesIsTwoMinutes` | src/app/core/services/file-validation.service.ts:52-58 | a 2 MiB file is estimated at 120 seconds |
| `UploadService.RoundPercent` | src/app/core/services/upload.service.ts:25 | the percentage is the integer nearest to 100 × loaded / total, with halves rounded up |
| `UploadService.PercentBounds` | src/app/core/services/upload.service.ts:25 | for loaded ≤ total the percentage is at most 100, and exactly 100 when loaded = total |
| `UploadService.PercentMonotone` | src/app/core/services/upload.service.ts:25 | more bytes sent never gives a smaller percentage |
| `UploadService.WrittenProgressMonotone` | src/app/core/services/upload.service.ts:23-27 | over one transfer the written values are non-decreasing, at most 100, and 100 after a final event with loaded = total |
| `UploadService.WrittenFrom` | src/app/core/services/upload.service.ts:23-27 | each written value comes from a length-computable event |
| `UploadService.Settle` | src/app/core/services/upload.service.ts:29-34 | resolves exactly on a 2xx status; other statuses reject with "Upload failed with status " and the status, and a network error rejects with 'Network error during upload' |
| `UploadService.RejectionNamesStatus` | src/app/core/services/upload.service.ts:31 | the text after the prefix is the status's decimal numeral and reads back as the status |
| `UrlUtils.CleanUrl` | src/app/core/services/url-utils.service.ts:7-9 | a prefix of the input without `?`: the whole input when it has no `?`, else exactly the text before its first `?` |
| `UrlUtils.CleanUrlIdempotent` | src/app/core/services/url-utils.service.ts:7-9 | cleaning twice is cleaning once |
| `TrackItem.FormatDuration` | src/app/components/track-item/track-item.component.ts:15-19 | digits, then `:` third from the end, then exactly two digits |
| `TrackItem.FormatDurationRoundTrip` | src/app/components/track-item/track-item.component.ts:16-18 | the seconds part reads back below 60, the minutes part has no leading zero, and minutes × 60 + seconds is the input |
| `TrackItem.ClockRead` | src/app/components/track-item/track-item.component.ts:18 | m:ss text reads back as its minute and second counts, and the minutes have no leading zero |
| `TrackItem.FormatDurationInjective` | src/app/components/track-item/track-item.component.ts:15-19 | different durations give different texts |
| `TrackItem.FormatFractional` | src/app/components/track-item/track-item.component.ts:15-19 | a non-negative fractional duration is formatted with a `:` third from the end |
| `TrackItem.FractionDropped` | src/app/components/track-item/track-item.component.ts:16-17 | a fractional duration is shown as its whole seconds are |
| `TrackItem.FormatFractionalExample` | src/app/components/track-item/track-item.component.ts:15-19 | 125.7 seconds is shown as "2:05" |
| `TrackItem.FormatDurationExample125` | src/app/components/track-item/track-item.component.spec.ts:70 | 125 gives "2:05" |
| `TrackItem.FormatDurationExample60` | src/app/components/track-item/track-item.component.spec.ts:71 | 60 gives "1:00" |
| `TrackItem.FormatDurationExample59` | src/app/components/track-item/track-item.component.spec.ts:72 | 59 gives "0:59" |
| `TrackItem.FormatDurationExample0` | src/app/components/track-item/track-item.component.spec.ts:73 | 0 gives "0:00" |
| `ReleaseStats.CalculateStats` | src/app/core/services/release-stats.service.ts:14-24 | approved plus pending never exceeds the number of releases |
| `ReleaseStats.StatusCounts` | src/app/core/services/release-stats.service.ts:15-16 | each count is the number of releases whose status is exactly 'APPROVED' or 'PENDING' |
| `ReleaseStats.CalculateStatsEmpty` | src/app/core/services/release-stats.service.ts:14-24 | no releases give all zeros |
| `ReleaseStats.CalculateStatsConcat` | src/app/core/services/release-stats.service.ts:14-24 | the stats of a concatenation are the field-wise sums |
| `ReleaseStats.CalculateStatsPermutation` | src/app/core/services/release-stats.service.ts:15-17 | reordering the releases does not change the stats |
| `Dashboard.TotalStreamsOverAllTracks` | src/app/routes/dashboard/dashboard.component.ts:160-167 | the stored total is the sum over every track of every release, missing streams and missing track lists counting 0 |
| `Dashboard.MonthlyRevenueConcat` | src/app/routes/dashboard/dashboard.component.ts:169-179 | monthly revenue adds up over concatenated royalty lists |
| `Dashboard.MonthlyRevenueOtherMonths` | src/app/routes/dashboard/dashboard.component.ts:173-177 | royalties whose period does not parse to the month contribute nothing |
| `Dashboard.CurrentMonthAgrees` | src/app/routes/dashboard/dashboard.component.ts:169-179 | when every period is a month key, the revenue of the current month (counted in months, so year `now / 12` and month `now % 12 + 1`) is the sum of the amounts whose period is exactly that month's key |
| `Dashboard.CalendarYear` | src/app/routes/dashboard/dashboard.component.ts:188 | `new Date` reads years 0..99 as 1900..1999 |
| `Dashboard.MonthKeyShape` | src/app/routes/dashboard/dashboard.component.ts:189-192 | a key is year digits, a `-`, and two month digits |
| `Dashboard.MonthKeyParses` | src/app/routes/dashboard/dashboard.component.ts:175-176 | the period parser reads a month key back as its own year and month |
| `Dashboard.MonthKeyMatchesOnly` | src/app/routes/dashboard/dashboard.component.ts:175-176 | a month key matches only its own month |
| `Dashboard.MonthKeyInjective` | src/app/routes/dashboard/dashboard.component.ts:189-192 | different months have different keys |
| `Dashboard.SameMonth` | src/app/routes/dashboard/dashboard.component.ts:175-176 | on month keys, equal keys and parsing to the month agree |
| `Dashboard.SeriesEndsNow` | src/app/routes/dashboard/dashboard.component.ts:187-193 | the twelve months run one after another and end at the current month |
| `Dashboard.SeriesKeysDistinct` | src/app/routes/dashboard/dashboard.component.ts:187-193 | no month occurs twice in the series |
| `Dashboard.SeriesKeys` | src/app/routes/dashboard/dashboard.component.ts:187-197 | twelve keys, oldest first, the j-th being the key of the j-th month of the series |
| `Dashboard.TallyAt` | src/app/routes/dashboard/dashboard.component.ts:199-203 | the accumulated table holds each period's revenue and omits only periods without revenue |
| `Dashboard.TallyLookup` | src/app/routes/dashboard/dashboard.component.ts:204 | looking a month key up in the table, with 0 for a missing or zero entry, gives the revenue of that exact period |
| `Dashboard.RevenueByMonth` | src/app/routes/dashboard/dashboard.component.ts:199-203 | the loop builds the tally of the royalties |
| `Dashboard.RevenueSeries` | src/app/routes/dashboard/dashboard.component.ts:184-204 | twelve keys and twelve values, each value the sum of amounts with exactly that period, 0 when none |
| `Dashboard.CollectTrackStats` | src/app/routes/dashboard/dashboard.component.ts:88-95 | one entry per track of every release, in release order, missing streams as 0 |
| `Dashboard.SortByStreams` | src/app/routes/dashboard/dashboard.component.ts:96-97 | the array ends sorted by streams, most first, and is a permutation of what it held |
| `Dashboard.InsertBackward` | src/app/routes/dashboard/dashboard.component.ts:96-97 | one insertion step extends the sorted prefix and keeps a permutation |
| `Dashboard.TopOfSorted` | src/app/routes/dashboard/dashboard.component.ts:96-98 | the first n of a sorted permutation are a sorted sub-multiset that no left-out entry beats |
| `Dashboard.SortedTrackStats` | src/app/routes/dashboard/dashboard.component.ts:88-97 | the collected entries and a sorted permutation of them |
| `Dashboard.TopTracks` | src/app/routes/dashboard/dashboard.component.ts:88-100 | min(5, number of tracks) labels and values, non-increasing, drawn from the tracks, and no track left out has more streams than one shown |
| `Dashboard.TopTrackOrigin` | src/app/routes/dashboard/dashboard.component.ts:88-100 | every shown entry is some release's track, with missing streams as 0 |
| `Dashboard.RevenueByRelease` | src/app/routes/dashboard/dashboard.component.ts:122-143 | labels and data have equal length and are the releases, in order, whose table entry is truthy |
| `Dashboard.ReleaseTotal` | src/app/routes/dashboard/dashboard.component.ts:124-131 | the total of one release is the sum, over its tracks, of each track's royalty amounts, and 0 without tracks |
| `Dashboard.SliceRows` | src/app/routes/dashboard/dashboard.component.ts:136-143 | labels and data pair up as the releases, in order, whose table entry is truthy, each with that entry |
| `Dashboard.RevenueTableEntries` | src/app/routes/dashboard/dashboard.component.ts:122-135 | with distinct ids, a release is in the table exactly when its total is positive, under its own total |
| `Dashboard.RevenueTableMissing` | src/app/routes/dashboard/dashboard.component.ts:122-135 | an id no release carries has no entry |
| `Dashboard.RevenueByReleaseDistinct` | src/app/routes/dashboard/dashboard.component.ts:122-143 | with distinct ids, the chart shows exactly the releases with a positive total, in order. Each value is the sum of the royalty amounts for that release's tracks |
| `Dashboard.SlicesAgree` | src/app/routes/dashboard/dashboard.component.ts:136-143 | a table agreeing with each release's total yields exactly the positive releases |
| `Dashboard.DashboardComponent.SetTotalReleases` | src/app/routes/dashboard/dashboard.component.ts:156-158 | `totalReleases` is the number of releases, the other figures unchanged |
| `Dashboard.DashboardComponent.SetTotalStreams` | src/app/routes/dashboard/dashboard.component.ts:160-167 | `totalStreams` is the nested stream total, the other figures unchanged |
| `Dashboard.DashboardComponent.SetMonthlyRevenue` | src/app/routes/dashboard/dashboard.component.ts:169-179 | `monthlyRevenue` is the current month's revenue, the other figures unchanged |
| `Admin.WithoutArtist` | src/app/routes/admin/admin.component.ts:78 | no artist with that id remains, and the list does not grow |
| `Admin.WithoutArtistExact` | src/app/routes/admin/admin.component.ts:78 | every other artist stays as often as it occurred, those with that id all go |
| `Admin.WithoutArtistOrder` | src/app/routes/admin/admin.component.ts:78 | the artists that stay keep their order |
| `Admin.WithoutArtistAbsent` | src/app/routes/admin/admin.component.ts:78 | deleting an id nobody carries changes nothing |
| `Admin.WithoutRelease` | src/app/routes/admin/admin.component.ts:101-111 | only artists with that artistId change, and only in their releases, which do not grow |
| `Admin.WithoutReleaseExact` | src/app/routes/admin/admin.component.ts:106 | in the matching artist a release stays exactly when it was there with another id |
| `Admin.WithoutTrackIn` | src/app/routes/admin/admin.component.ts:138-146 | a release changes only when it has that id and a track list, and then keeps exactly the tracks with another id |
| `Admin.WithoutTrack` | src/app/routes/admin/admin.component.ts:133-151 | only artists with that artistId change, release by release as `WithoutTrackIn` says |
| `Admin.WithoutTrackElsewhere` | src/app/routes/admin/admin.component.ts:133-151 | every release of another id, or of another artist, is unchanged |
| `Admin.AdminComponent.LoadAllArtists` | src/app/routes/admin/admin.component.ts:44-47 | loading on, error null, nothing else |
| `Admin.AdminComponent.OnArtistsLoaded` | src/app/routes/admin/admin.component.ts:50-59 | success replaces the artists and clears loading; failure sets 'Failed to load artists data' and clears loading |
| `Admin.AdminComponent.RefreshData` | src/app/routes/admin/admin.component.ts:162-164 | as `loadAllArtists` |
| `Admin.AdminComponent.ToggleArtistExpansion` | src/app/routes/admin/admin.component.ts:62-65 | the same id collapses to null, any other id expands, nothing else changes |
| `Admin.AdminComponent.OnDeleteArtist` | src/app/routes/admin/admin.component.ts:67-74 | a declined prompt requests nothing and changes nothing; a confirmed one marks the artist deleting and clears the error |
| `Admin.AdminComponent.OnArtistDeleted` | src/app/routes/admin/admin.component.ts:76-86 | success prunes the artist and clears the deleting and expanded ids; failure sets 'Failed to delete artist', clears the deleting id and keeps the list |
| `Admin.AdminComponent.OnDeleteRelease` | src/app/routes/admin/admin.component.ts:90-97 | a declined prompt changes nothing; a confirmed one marks the release deleting |
| `Admin.AdminComponent.OnReleaseDeleted` | src/app/routes/admin/admin.component.ts:99-118 | success prunes the release from the matching artist; failure sets 'Failed to delete release' and keeps the list |
| `Admin.AdminComponent.OnDeleteTrack` | src/app/routes/admin/admin.component.ts:122-129 | a declined prompt changes nothing; a confirmed one marks the track deleting |
| `Admin.AdminComponent.OnTrackDeleted` | src/app/routes/admin/admin.component.ts:131-158 | success prunes the track from the matching release; failure sets 'Failed to delete track' and keeps the list |
| `AdminService.ArtistUsers` | src/app/core/services/admin.service.ts:25 | only users with role 'artist' are kept, and the list does not grow |
| `AdminService.ArtistUsersExact` | src/app/core/services/admin.service.ts:25 | every artist stays as often as it occurred and nobody else does |
| `AdminService.ArtistUsersOrder` | src/app/core/services/admin.service.ts:25 | artists keep their original order |
| `AdminService.ArtistUsersNone` | src/app/core/services/admin.service.ts:25-27 | with no artist the list is empty |
| `AdminService.TotalTracksCountsAll` | src/app/core/services/admin.service.ts:41 | `totalTracks` counts every track of every release once, missing lists as 0 |
| `AdminService.TotalStreamsOrderFree` | src/app/core/services/admin.service.ts:42 | the stream total does not depend on release order |
| `AdminService.TotalStreamsBounds` | src/app/core/services/admin.service.ts:42 | with no negative counts the total is at least each release's own count |
| `AdminService.TotalStreamsNonNegative` | src/app/core/services/admin.service.ts:42 | with no negative counts the total is non-negative |
| `AdminService.ArtistWithData` | src/app/core/services/admin.service.ts:40-53 | id, name, email and role copied from the user, releases passed through, totals as above |
| `AdminService.AllArtistsWithData` | src/app/core/services/admin.service.ts:23-33 | one entry per artist user, in order, each equal to the record built from that artist's user record and releases |
| `AdminService.AllArtistsNone` | src/app/core/services/admin.service.ts:27 | without artists the result is the empty list |
| `Login.FormValidIff` | src/app/routes/login/login.component.ts:21-24 | the form is valid exactly when the email is filled in and email-shaped and the password is filled in |
| `Login.LoginComponent.Submit` | src/app/routes/login/login.component.ts:26-34 | an invalid form changes nothing and sends nothing. A valid one sets loading true and error null, and sends exactly the form's email and password |
| `Login.LoginComponent.OnLoginSettled` | src/app/routes/login/login.component.ts:34-40 | success navigates to '/dashboard' and leaves loading as it is; any failure sets 'Invalid email or password' and loading false |
| `Register.FormValidIff` | src/app/routes/register/register.component.ts:20-24 | valid exactly when the name has 1 to 50 UTF-16 code units, the email is filled in and email-shaped, and the password has at least 6 code units |
| `Register.LongAstralNameRefused` | src/app/routes/register/register.component.ts:20 | a name of 26 characters beyond U+FFFF counts 52 code units and is refused by the 50-unit limit |
| `Register.ShortAstralPasswordAccepted` | src/app/routes/register/register.component.ts:22 | a password of 3 characters beyond U+FFFF counts 6 code units and meets the 6-unit minimum |
| `Forms.Utf16Length` | src/app/routes/register/register.component.ts:20-22 | the length the length validators compare lies between the character count and twice it, and is zero only for empty text |
| `Forms.Utf16LengthAstral` | src/app/routes/register/register.component.ts:20-22 | text made only of characters beyond U+FFFF has two code units per character |
| `Forms.Utf16LengthBasic` | src/app/routes/register/register.component.ts:20-22 | text made only of characters up to U+FFFF has one code unit per character |
| `Register.ErrorText` | src/app/routes/register/register.component.ts:39 | the server's message when present and non-empty, else 'Registration failed.'; never empty |
| `Register.RegisterComponent.Submit` | src/app/routes/register/register.component.ts:27-33 | an invalid form changes nothing and posts nothing. A valid one sets loading true, error null and success false, and posts name, email, password and role 'artist' |
| `Register.RegisterComponent.OnRegisterSettled` | src/app/routes/register/register.component.ts:34-41 | success sets `success` and schedules '/login' after 1500 ms; failure shows the error text and clears loading |

## Left out

- HTTP transport: XMLHttpRequest and HttpClient, request headers, `withCredentials` and the signed-URL query parameters. Every collaborator's answer is a parameter of the step that receives it.
- rxjs and the Angular lifecycle: `forkJoin`, `switchMap`, `takeUntil`, `ngOnDestroy` and Router navigation. A navigation or a timer is returned as a value, not performed. `window.confirm` is the boolean `confirmed`.
- Overlapping uploads: `Upload.UploadComponent.OnFileSelected` requires that no upload is suspended, because the source does not guard a second selection during an upload and the interleavings are not modelled.
- Angular's email pattern is not modelled. `Validators.email` is the opaque predicate `looksLikeEmail`.
- Floating point: progress and the duration estimate use exact integers and reals. `UploadService.ProgressWrite` writes nothing for a length-computable event with total 0, where the source would write NaN.
- `Dashboard.PeriodMatches` reads a field with `Number` only when it is empty or all digits. Any other text (signs, spaces, decimals, exponents) is treated as not matching.
- `Dashboard.TopTracks` does not state which of several tracks with equal streams are kept. The stable sort's tie order is not part of its contract.
- `Dashboard.RevenueByReleaseDistinct` assumes distinct release ids. With repeated ids the method's contract still gives the table-and-slices result exactly.
- `Dashboard.SeriesEndsNow` assumes a year of at least 100. Below that, `new Date` remaps years 0..99; `Dashboard.CalendarYear` models this, but the series lemma does not cover it.
- Chart.js rendering, the chart-config builders, the canvas-presence guards and the `toLocaleString` month labels are not modelled. The data builders always compute their data.
- `TrackItem.FormatDuration` and `TrackItem.FormatFractional` cover non-negative durations only. Negative input, which JavaScript's `%` would render with minus signs, is not modelled.
- `Upload.UploadComponent.OnUploadProgress` requires that a length-computable event never reports more bytes sent than its total, as browsers guarantee; events that break this are not modelled.
- `Text.ToLower` lowers ASCII letters only. Full Unicode case mapping is not modelled.
- `form.reset()` writes null to every control. The model writes the empty text, which every reader in the component treats the same way.
- The class `Upload.UploadComponent` uses `Upload.CanSubmit` evaluated afresh. Angular's memoisation of `canSubmit` is modelled separately (see Findings).
- Session state, route guards, date/currency pipes, and presentation or fixture-only components are not part of this model.

## Findings

| source | as written | input that shows it | evidently intended | confidence | as-written member | corrected member |
|---|---|---|---|---|---|---|
| src/app/routes/upload/upload.component.ts:55-60 | `canSubmit` is a `computed` whose only signal is `uploading()`, and `&&` stops before it when the form is invalid or the file is missing. Such an evaluation records no dependency, so the cached value never updates. While `uploading` keeps its version, a cached true also survives a reset | after an upload, press submit before picking a release (reads false), then pick release 7 and submit again: still refused with 'Please fill all required fields and upload a file' | the gate reflects the current form, URL, metadata and `uploading` on every read | high (Angular signal semantics; not executed) | `Upload.StaleCanSubmitExample` | `Upload.SubmitDecision` |
