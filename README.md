# MentalQ: a Dafny model of the app's state logic

MentalQ is an Android journalling and counselling app written in Kotlin.
This project models the parts of it that hold state or make decisions:

- The repository outcome type `Result` (Success / Error / Loading).
- The note-list view-model, which folds the load, add and delete outcomes into its screen state, note list and pending navigation.
- The note-detail view-model, which loads one note, edits its title, content and emotion, and pushes the edited copy to the local and remote stores.
- The profile view-model: user data, notification toggles with the daily-streak worker, and logout.
- The payment (Midtrans) view-model, which tracks the psychologist, the created transaction and its status.
- The `Utils` helpers: date and timestamp formatting, the percentage colour scale, EXIF rotation and the JPEG re-compression loop.
- The bearer-token interceptor in the dependency-injection module, and which API clients install it.
- The top-level navigation: start route, routing after sign-in, logout.
- The profile screen: the avatar source, the edit-profile dialog with its email-change confirmation, and the logout paths.

Each view-model is a class with the source's mutable fields and a ghost history of the events applied to it. An event is a public call or one emission delivered to an observer.

The class invariant says that the fields equal a pure fold (`Run`) of that history from the initial state. Each method is proved to keep that invariant and states its new field values. The properties the app relies on are proved as lemmas over any sequence of events. The navigation host and the edit-profile dialog follow the same pattern.

Collaborators that are not part of this model are represented by recorded calls (`calls`, `effects`) or by function parameters:

- repositories, DAOs, the preference store, the notification helper and the streak worker;
- the JPEG encoder and the java.time parsers.

## Model

| member | source | states |
|---|---|---|
| Results.ExactlyOneVariant | app/src/main/java/com/c242_ps246/mentalq/data/repository/Result.kt:3-7 | Every outcome is exactly one of Success, Error and Loading. Success and Error are terminal; Loading is not. |
| Results.StructuralEquality | app/src/main/java/com/c242_ps246/mentalq/data/repository/Result.kt:4-6 | Data-class equality: two Successes are equal iff their payloads are, and two Errors iff their messages are. The variants never coincide, and Loading is a single object. |
| Results.FailuresInhabitEveryType | app/src/main/java/com/c242_ps246/mentalq/data/repository/Result.kt:3 | Error and Loading are `Result<Nothing>`, so with `out R` they are outcomes at every payload type. (Also Result.kt lines 5-6.) |
| NoteViewModels.Initial | app/src/main/java/com/c242_ps246/mentalq/ui/main/note/NoteViewModel.kt:15-37 | Initial state: loading, no note, no success, no error, an empty list, no pending navigation. The `init` block has already requested one load. |
| NoteViewModels.LoadingOnlyRaisesFlag | app/src/main/java/com/c242_ps246/mentalq/ui/main/note/NoteViewModel.kt:43-45 | A Loading emission in any of the three observers raises `isLoading` and changes nothing else. (Also NoteViewModel.kt lines 66-68, 95-97.) |
| NoteViewModels.LoadOutcomes | app/src/main/java/com/c242_ps246/mentalq/ui/main/note/NoteViewModel.kt:47-56 | A loaded list replaces the old one and clears the error. A failed load records its message and keeps the old list. Neither touches success or navigation. |
| NoteViewModels.MutationOutcomes | app/src/main/java/com/c242_ps246/mentalq/ui/main/note/NoteViewModel.kt:70-85 | A successful insert sets success, clears the error, points the navigation at the new note's id and requests a reload. A successful delete does the same but leaves the navigation alone. An error only records its message. (Also NoteViewModel.kt lines 99-108.) |
| NoteViewModels.SuccessFlag | app/src/main/java/com/c242_ps246/mentalq/ui/main/note/NoteViewModel.kt:70-75 | After any events, `success` holds iff it held at the start or some add or delete succeeded. Nothing resets it. (Also NoteViewModel.kt lines 99-101.) |
| NoteViewModels.ScreenNoteNeverWritten | app/src/main/java/com/c242_ps246/mentalq/ui/main/note/NoteViewModel.kt:15-20 | No event ever writes the `note` field of the screen state. (Also NoteViewModel.kt lines 39-120.) |
| NoteViewModels.ListOnlyFromLoads | app/src/main/java/com/c242_ps246/mentalq/ui/main/note/NoteViewModel.kt:47-51 | Without a successful load emission, the list stays what it was. |
| NoteViewModels.NavigationTargetsInsertedNote | app/src/main/java/com/c242_ps246/mentalq/ui/main/note/NoteViewModel.kt:76 | The pending navigation is the initial one, cleared, or the id of a note that some insert returned. (Also NoteViewModel.kt lines 114-116.) |
| NoteViewModels.CallLog | app/src/main/java/com/c242_ps246/mentalq/ui/main/note/NoteViewModel.kt:39-41 | The call log grows by exactly the calls each event issues: one reload per load call and per successful add or delete, one insert per add, one delete per delete. (Also NoteViewModel.kt lines 62-64, 77, 91-93, 102.) |
| NoteViewModels.NoteViewModel.constructor | app/src/main/java/com/c242_ps246/mentalq/ui/main/note/NoteViewModel.kt:26-37 | Default fields, with the initial load issued. |
| NoteViewModels.NoteViewModel.LoadAllNotes | app/src/main/java/com/c242_ps246/mentalq/ui/main/note/NoteViewModel.kt:39-41 | Issues one list load and changes no other field. |
| NoteViewModels.NoteViewModel.AddNote | app/src/main/java/com/c242_ps246/mentalq/ui/main/note/NoteViewModel.kt:62-64 | Issues one insert of the note. |
| NoteViewModels.NoteViewModel.DeleteNote | app/src/main/java/com/c242_ps246/mentalq/ui/main/note/NoteViewModel.kt:91-93 | Issues one delete of the id. |
| NoteViewModels.NoteViewModel.OnAllNotes | app/src/main/java/com/c242_ps246/mentalq/ui/main/note/NoteViewModel.kt:41-57 | The list observer's three branches, field by field. The class invariant is kept. |
| NoteViewModels.NoteViewModel.OnInserted | app/src/main/java/com/c242_ps246/mentalq/ui/main/note/NoteViewModel.kt:64-86 | The insert observer's three branches. Success sets the navigation target and reloads. |
| NoteViewModels.NoteViewModel.OnDeleted | app/src/main/java/com/c242_ps246/mentalq/ui/main/note/NoteViewModel.kt:93-109 | The delete observer's three branches. Success reloads and keeps the navigation. |
| NoteViewModels.NoteViewModel.NavigateToNoteDetailCompleted | app/src/main/java/com/c242_ps246/mentalq/ui/main/note/NoteViewModel.kt:114-116 | Clears the pending navigation only. |
| NoteViewModels.NoteViewModel.ClearError | app/src/main/java/com/c242_ps246/mentalq/ui/main/note/NoteViewModel.kt:118-120 | Clears the error only. |
| NoteDetailViewModels.ShowNullable | app/src/main/java/com/c242_ps246/mentalq/ui/main/note/detail/NoteDetailViewModel.kt:48-50 | `toString()` on a nullable string: the text itself, or "null". |
| NoteDetailViewModels.Initial | app/src/main/java/com/c242_ps246/mentalq/ui/main/note/detail/NoteDetailViewModel.kt:13-37 | Initial state: loading, no note, no error, empty title, content and date, no emotion, no calls. |
| NoteDetailViewModels.Edited | app/src/main/java/com/c242_ps246/mentalq/ui/main/note/detail/NoteDetailViewModel.kt:81-85 | The pushed copy has the screen's title, content and emotion, and keeps the loaded note's id, owner and timestamps. (Also NoteDetailViewModel.kt lines 99-103.) |
| NoteDetailViewModels.FetchSuccess | app/src/main/java/com/c242_ps246/mentalq/ui/main/note/detail/NoteDetailViewModel.kt:42-51 | A fetched note becomes the screen's note and fills title, content and date through `toString()`, and the emotion as is. An earlier error is not cleared. |
| NoteDetailViewModels.FetchFailure | app/src/main/java/com/c242_ps246/mentalq/ui/main/note/detail/NoteDetailViewModel.kt:52-56 | A failed fetch ends loading and sets the error to the exception's (possibly null) message. Nothing else changes. |
| NoteDetailViewModels.FieldUpdates | app/src/main/java/com/c242_ps246/mentalq/ui/main/note/detail/NoteDetailViewModel.kt:61-92 | Each update sets its own field only. With no note loaded nothing is sent. With a note loaded, exactly one local write of the edited copy is sent. |
| NoteDetailViewModels.WriteOutcome | app/src/main/java/com/c242_ps246/mentalq/ui/main/note/detail/NoteDetailViewModel.kt:94-110 | A write that throws sets only the error. A write that completes leaves the screen state alone. |
| NoteDetailViewModels.WritesCarryLoadedRecord | app/src/main/java/com/c242_ps246/mentalq/ui/main/note/detail/NoteDetailViewModel.kt:43-46 | Every write ever sent carries a note with the id, owner and timestamps of a fetched note, so no write precedes a load. The screen's note is always one a fetch returned. (Also NoteDetailViewModel.kt lines 79-87, 97-105.) |
| NoteDetailViewModels.DateOnlyFromFetch | app/src/main/java/com/c242_ps246/mentalq/ui/main/note/detail/NoteDetailViewModel.kt:50 | The date is only ever written by a successful fetch. (Also NoteDetailViewModel.kt lines 61-110.) |
| NoteDetailViewModels.NoteDetailViewModel.LoadNote | app/src/main/java/com/c242_ps246/mentalq/ui/main/note/detail/NoteDetailViewModel.kt:39-43 | Raises loading and issues the fetch. |
| NoteDetailViewModels.NoteDetailViewModel.OnNoteFetched | app/src/main/java/com/c242_ps246/mentalq/ui/main/note/detail/NoteDetailViewModel.kt:43-57 | The fetch result's two branches, field by field. |
| NoteDetailViewModels.NoteDetailViewModel.UpdateTitle | app/src/main/java/com/c242_ps246/mentalq/ui/main/note/detail/NoteDetailViewModel.kt:61-64 | Sets the title. When a note is loaded, it pushes exactly one local write of the edited note, and a throwing write sets the error to its message. (Also NoteDetailViewModel.kt lines 76-92.) |
| NoteDetailViewModels.NoteDetailViewModel.UpdateContent | app/src/main/java/com/c242_ps246/mentalq/ui/main/note/detail/NoteDetailViewModel.kt:66-69 | Sets the content. When a note is loaded, it pushes one local write of the edited note, and a throwing write sets the error. (Also NoteDetailViewModel.kt lines 76-92.) |
| NoteDetailViewModels.NoteDetailViewModel.UpdateEmotion | app/src/main/java/com/c242_ps246/mentalq/ui/main/note/detail/NoteDetailViewModel.kt:71-74 | Sets the emotion. When a note is loaded, it pushes one local write of the edited note, and a throwing write sets the error. (Also NoteDetailViewModel.kt lines 76-92.) |
| NoteDetailViewModels.NoteDetailViewModel.UpdateRemoteNote | app/src/main/java/com/c242_ps246/mentalq/ui/main/note/detail/NoteDetailViewModel.kt:94-110 | Pushes the edited note remotely when one is loaded. A throw sets the error. |
| ProfileViewModels.Initial | app/src/main/java/com/c242_ps246/mentalq/ui/main/profile/ProfileViewModel.kt:29-39 | No user data, notifications shown as off until the store emits, no calls made. |
| ProfileViewModels.NotificationEffects | app/src/main/java/com/c242_ps246/mentalq/ui/main/profile/ProfileViewModel.kt:47-57 | Turning on schedules the streak worker and turning off cancels it (iff in each case). The flag is persisted last either way. |
| ProfileViewModels.NotificationEffectsDecide | app/src/main/java/com/c242_ps246/mentalq/ui/main/profile/ProfileViewModel.kt:49-55 | After one toggle, both the persisted flag and the worker's state equal the requested flag. |
| ProfileViewModels.SummariesIgnoreOtherCalls | app/src/main/java/com/c242_ps246/mentalq/ui/main/profile/ProfileViewModel.kt:41-45 | Logout and user fetches change neither the persisted flag nor the worker's state. (Also ProfileViewModel.kt lines 59-60.) |
| ProfileViewModels.LastToggleWins | app/src/main/java/com/c242_ps246/mentalq/ui/main/profile/ProfileViewModel.kt:47-57 | Over any events, the last toggle decides both the persisted preference and whether the worker is scheduled. |
| ProfileViewModels.UserDataFromSuccess | app/src/main/java/com/c242_ps246/mentalq/ui/main/profile/ProfileViewModel.kt:66-69 | User data is only ever replaced by a successful emission's payload. |
| ProfileViewModels.UserOutcomes | app/src/main/java/com/c242_ps246/mentalq/ui/main/profile/ProfileViewModel.kt:60-75 | The user observer's three branches. |
| ProfileViewModels.ProfileViewModel.Logout | app/src/main/java/com/c242_ps246/mentalq/ui/main/profile/ProfileViewModel.kt:41-45 | Issues one repository logout. |
| ProfileViewModels.ProfileViewModel.SetNotificationsEnabled | app/src/main/java/com/c242_ps246/mentalq/ui/main/profile/ProfileViewModel.kt:47-57 | Makes the toggle's calls in order. It does not itself change the shown flag. |
| ProfileViewModels.ProfileViewModel.OnNotificationsPreference | app/src/main/java/com/c242_ps246/mentalq/ui/main/profile/ProfileViewModel.kt:35-39 | The shown flag follows the stored preference. |
| ProfileViewModels.ProfileViewModel.GetUserData | app/src/main/java/com/c242_ps246/mentalq/ui/main/profile/ProfileViewModel.kt:59-60 | Subscribes to the user. |
| ProfileViewModels.ProfileViewModel.OnUser | app/src/main/java/com/c242_ps246/mentalq/ui/main/profile/ProfileViewModel.kt:60-75 | The user observer, field by field. |
| MidtransViewModels.Initial | app/src/main/java/com/c242_ps246/mentalq/ui/main/psychologist/midtrans/MidtransViewModel.kt:16-44 | Initial state: loading, no success, no error, and all five payload fields null. |
| MidtransViewModels.EmissionFlags | app/src/main/java/com/c242_ps246/mentalq/ui/main/psychologist/midtrans/MidtransViewModel.kt:51-63 | In all four observers the loading flag is raised iff the emission is Loading. Loading and Error change nothing else, because the error is only logged. (Also MidtransViewModel.kt lines 72-85, 94-109, 117-130.) |
| MidtransViewModels.SuccessPayloads | app/src/main/java/com/c242_ps246/mentalq/ui/main/psychologist/midtrans/MidtransViewModel.kt:55-58 | Each success writes exactly its payload fields. A cancellation reports like a status query. (Also MidtransViewModel.kt lines 76-80, 98-101, 121-125.) |
| MidtransViewModels.SuccessAndErrorNeverWritten | app/src/main/java/com/c242_ps246/mentalq/ui/main/psychologist/midtrans/MidtransViewModel.kt:16-20 | `success` and `error` keep their initial values under every event. (Also MidtransViewModel.kt lines 47-133.) |
| MidtransViewModels.OrderAndRedirectPaired | app/src/main/java/com/c242_ps246/mentalq/ui/main/psychologist/midtrans/MidtransViewModel.kt:76-80 | Order id and redirect URL always come from the same created transaction. |
| MidtransViewModels.StatusAndMessagePaired | app/src/main/java/com/c242_ps246/mentalq/ui/main/psychologist/midtrans/MidtransViewModel.kt:98-101 | Status and message always come from the same status or cancellation response. (Also MidtransViewModel.kt lines 121-125.) |
| MidtransViewModels.MidtransViewModel.Request | app/src/main/java/com/c242_ps246/mentalq/ui/main/psychologist/midtrans/MidtransViewModel.kt:47-49 | A public call appends exactly its own repository call to the call log and changes no field. (Also MidtransViewModel.kt lines 69-70, 91-92, 114-115.) |
| MidtransViewModels.MidtransViewModel.OnPsychologist | app/src/main/java/com/c242_ps246/mentalq/ui/main/psychologist/midtrans/MidtransViewModel.kt:49-65 | The psychologist observer, field by field. |
| MidtransViewModels.MidtransViewModel.OnTransactionCreated | app/src/main/java/com/c242_ps246/mentalq/ui/main/psychologist/midtrans/MidtransViewModel.kt:70-88 | The creation observer, field by field. |
| MidtransViewModels.MidtransViewModel.OnTransactionState | app/src/main/java/com/c242_ps246/mentalq/ui/main/psychologist/midtrans/MidtransViewModel.kt:92-111 | The status and cancellation observers, field by field. (Also MidtransViewModel.kt lines 115-132.) |
| Utils.FormatDate | app/src/main/java/com/c242_ps246/mentalq/ui/utils/Utils.kt:45-62 | The result is the input or the output of the pipeline chosen by the 'T' test. A failing pipeline returns the input; a successful one always wins. |
| Utils.FormatDateConsultsOnePipeline | app/src/main/java/com/c242_ps246/mentalq/ui/utils/Utils.kt:51-58 | Only the pipeline selected by the 'T' test influences the result. |
| Utils.RejectedStringIsFixedPoint | app/src/main/java/com/c242_ps246/mentalq/ui/utils/Utils.kt:59-61 | A string that the pipeline selected by the 'T' test rejects comes back unchanged, and formatting it again still gives it back. |
| Utils.WrapLong | app/src/main/java/com/c242_ps246/mentalq/ui/utils/Utils.kt:182 | 64-bit wrap-around: the result is a Long congruent to the input, and equal to it when it is already a Long. |
| Utils.TimestampPattern | app/src/main/java/com/c242_ps246/mentalq/ui/utils/Utils.kt:180-188 | For every exactly representable age: under a day gives "HH:mm", under a week gives "EEE", otherwise "dd/MM/yy" (each iff). |
| Utils.FormatTimestamp | app/src/main/java/com/c242_ps246/mentalq/ui/utils/Utils.kt:180-189 | The timestamp itself (not its age) is formatted, with the pattern its age selects: "HH:mm" under a day, "EEE" under a week, "dd/MM/yy" beyond. |
| Utils.OlderTimestampsAreCoarser | app/src/main/java/com/c242_ps246/mentalq/ui/utils/Utils.kt:182-188 | At the same clock, an older timestamp never gets a finer pattern. A future timestamp shows the time of day. |
| Utils.OldestInstantWrapsToTimeOfDay | app/src/main/java/com/c242_ps246/mentalq/ui/utils/Utils.kt:182-185 | `now - Long.MIN_VALUE` overflows, so the oldest instant is shown as a time of day. |
| Utils.CoerceIn | app/src/main/java/com/c242_ps246/mentalq/ui/utils/Utils.kt:192 | Clamping into [lo, hi]: in-range values are kept, others go to the nearer bound. |
| Utils.ColorBasedOnPercentage | app/src/main/java/com/c242_ps246/mentalq/ui/utils/Utils.kt:191-207 | Dark shade iff dark mode. On the unclamped input: yellow iff ≤ 33, orange iff 34..66, red iff ≥ 67. |
| Utils.ColorScaleMonotone | app/src/main/java/com/c242_ps246/mentalq/ui/utils/Utils.kt:194-206 | The hue never decreases as the percentage grows, and the theme never changes the hue. |
| Utils.RotationDegrees | app/src/main/java/com/c242_ps246/mentalq/ui/utils/Utils.kt:112-117 | The angle is 90, 180 or 270 exactly for EXIF orientations 6, 3 and 8, and 0 for every other code. |
| Utils.BitmapWithCorrectRotation | app/src/main/java/com/c242_ps246/mentalq/ui/utils/Utils.kt:101-123 | The result is null iff decoding failed. A rotating orientation yields the rotated copy. An unreadable EXIF or any other orientation returns the decoded bitmap. |
| Utils.RotationIsSingle | app/src/main/java/com/c242_ps246/mentalq/ui/utils/Utils.kt:112-117 | At most one rotation, by a quarter-turn multiple, is applied to the decoded image. |
| Utils.QualityAt | app/src/main/java/com/c242_ps246/mentalq/ui/utils/Utils.kt:88 | Attempts 0..6 are exactly those whose quality the encoder accepts (60 down to 0). (Also Utils.kt lines 95.) |
| Utils.FirstFit | app/src/main/java/com/c242_ps246/mentalq/ui/utils/Utils.kt:90-96 | The least attempt whose encoding is at most 500000 bytes, with every earlier attempt exceeding it, or none when every accepted quality exceeds it. |
| Utils.CompressImageSize | app/src/main/java/com/c242_ps246/mentalq/ui/utils/Utils.kt:85-99 | The do-while loop as written. It measures 60, 50, … up to the first fitting quality. It writes at that quality minus 10, throws when that is negative or when nothing fits, and keeps the file when there is no bitmap. |
| Utils.AsWrittenWritesBelowMeasuredQuality | app/src/main/java/com/c242_ps246/mentalq/ui/utils/Utils.kt:95-97 | As written, the written quality is 10 below the fitting one and was never measured. For an encoder that does not grow as quality drops, the file still fits. |
| Utils.AsWrittenThrowsAfterFitAtZero | app/src/main/java/com/c242_ps246/mentalq/ui/utils/Utils.kt:88-97 | Counterexample: size fits only at quality 0. As written, the run measures 60..0 and then throws at -10; the corrected version writes at 0. |
| Utils.IntendedMeetsLimitOrFloor | app/src/main/java/com/c242_ps246/mentalq/ui/utils/Utils.kt:40 | The corrected behaviour never throws, and writes at an accepted quality that fits, or at 0 when nothing fits. (Also Utils.kt lines 85-99.) |
| Utils.CompressImageSizeIntended | app/src/main/java/com/c242_ps246/mentalq/ui/utils/Utils.kt:85-99 | The corrected loop stops at the first fitting quality or at 0, and writes at the last measured quality. |
| AppModule.AuthInterceptor | app/src/main/java/com/c242_ps246/mentalq/di/AppModule.kt:84-101 | The URL and the original headers are kept. Exactly one header is added iff the token is non-empty: "Authorization" whose value reads back as the token. An empty token forwards the request untouched. |
| AppModule.BearerToken | app/src/main/java/com/c242_ps246/mentalq/di/AppModule.kt:93 | Reading a header value back: "Bearer " followed by the returned token. |
| AppModule.BearerRoundTrip | app/src/main/java/com/c242_ps246/mentalq/di/AppModule.kt:92-94 | The value written for a non-empty token reads back as that token. |
| AppModule.Interceptors | app/src/main/java/com/c242_ps246/mentalq/di/AppModule.kt:106-109 | Every client logs first. The token interceptor is installed iff the client is the note, user or analysis client. (Also AppModule.kt lines 144-147, 182-185, 199-201, 218-220, 237-239, 256-258.) |
| AppModule.BaseUrlOf | app/src/main/java/com/c242_ps246/mentalq/di/AppModule.kt:104 | Only the Gemini client uses GEMINI_BASE_URL. (Also AppModule.kt lines 142, 180, 204, 223, 242, 261.) |
| AppModule.ForwardAddsAuthorization | app/src/main/java/com/c242_ps246/mentalq/di/AppModule.kt:84-101 | Running an interceptor chain keeps the URL and the original headers. It adds one Authorization header per token interceptor when the token is non-empty, and none otherwise. (Also AppModule.kt lines 107-108.) |
| AppModule.SendAttachesTokenOnlyForAuthenticatedClients | app/src/main/java/com/c242_ps246/mentalq/di/AppModule.kt:84-114 | A sent request gains exactly one Authorization header iff the client is note, user or analysis and the token is non-empty. Otherwise it is sent unchanged. (Also AppModule.kt lines 192-266.) |
| AppNavigations.HomeOf | app/src/main/java/com/c242_ps246/mentalq/ui/navigation/AppNavigation.kt:63-71 | "user" maps to the main screen and "psychologist" to the psychologist screen (each iff). No role maps to the sign-in screen. |
| AppNavigations.StartDestination | app/src/main/java/com/c242_ps246/mentalq/ui/navigation/AppNavigation.kt:34-50 | Main screen iff the role is "user", psychologist screen iff "psychologist", and sign-in otherwise, including no role. |
| AppNavigations.PopUpToInclusive | app/src/main/java/com/c242_ps246/mentalq/ui/navigation/AppNavigation.kt:65 | Leaves a prefix of the stack ending just below the topmost entry for the route, or the whole stack when the route is absent. (Also AppNavigation.kt lines 69.) |
| AppNavigations.Initial | app/src/main/java/com/c242_ps246/mentalq/ui/navigation/AppNavigation.kt:26-30 | Not logged out, the splash values saved, and the start route alone on the stack. (Also AppNavigation.kt lines 34.) |
| AppNavigations.AuthScreenArgs | app/src/main/java/com/c242_ps246/mentalq/ui/navigation/AppNavigation.kt:59-60 | The sign-in screen gets the launch token and role iff the user has not logged out, and nulls otherwise. |
| AppNavigations.MainScreenRole | app/src/main/java/com/c242_ps246/mentalq/ui/navigation/AppNavigation.kt:85 | The main screen gets the splash role, or "user" without one. |
| AppNavigations.PsychologistMainScreenRole | app/src/main/java/com/c242_ps246/mentalq/ui/navigation/AppNavigation.kt:98 | The psychologist screen gets the splash role, or "psychologist" without one. |
| AppNavigations.OnLogout | app/src/main/java/com/c242_ps246/mentalq/ui/navigation/AppNavigation.kt:77-84 | Logged out, splash token and role forgotten, and only the sign-in screen left on the stack. (Also AppNavigation.kt lines 90-97.) |
| AppNavigations.AuthSuccessRouting | app/src/main/java/com/c242_ps246/mentalq/ui/navigation/AppNavigation.kt:61-72 | Sign-in clears the logged-out flag. A known role replaces the sign-in entry with its home screen; an unknown role leaves the stack alone. The splash values are kept. |
| AppNavigations.LogoutHidesLaunchCredentials | app/src/main/java/com/c242_ps246/mentalq/ui/navigation/AppNavigation.kt:59-60 | After logout the sign-in screen is alone, gets no splash credentials, and both main screens fall back to their own roles. (Also AppNavigation.kt lines 77-98.) |
| AppNavigations.RolesMatchScreens | app/src/main/java/com/c242_ps246/mentalq/ui/navigation/AppNavigation.kt:34-98 | Launched with no role or a known one, each main screen is always given its own role, over any sequence of sign-ins and logouts. |
| AppNavigations.UnknownSplashRoleReachesMainScreen | app/src/main/java/com/c242_ps246/mentalq/ui/navigation/AppNavigation.kt:30 | As written, launching with an unknown role ("admin") and then signing in as a user gives the main screen the role "admin". (Also AppNavigation.kt lines 46-48, 64-66, 85.) |
| AppNavigations.UnknownRoleAfterLogoutRestoresLaunchCredentials | app/src/main/java/com/c242_ps246/mentalq/ui/navigation/AppNavigation.kt:59-72 | As written, after a logout a sign-in with an unknown role clears the logged-out flag without navigating. The sign-in screen then gets the launch token and role again. (Also AppNavigation.kt lines 77-84.) |
| AppNavigations.AppNavigation.constructor | app/src/main/java/com/c242_ps246/mentalq/ui/navigation/AppNavigation.kt:20-34 | Saved state from the splash values, with the start route alone on the stack. |
| AppNavigations.AppNavigation.AuthScreenArguments | app/src/main/java/com/c242_ps246/mentalq/ui/navigation/AppNavigation.kt:59-60 | The sign-in screen's splash arguments, from the fields. |
| AppNavigations.AppNavigation.OnSuccess | app/src/main/java/com/c242_ps246/mentalq/ui/navigation/AppNavigation.kt:61-72 | The sign-in callback, field by field. |
| AppNavigations.AppNavigation.OnLogout | app/src/main/java/com/c242_ps246/mentalq/ui/navigation/AppNavigation.kt:77-84 | The logout callback, field by field. Afterwards the sign-in screen gets no credentials. (Also AppNavigation.kt lines 90-97.) |
| ProfileScreens.ProfileImageModel | app/src/main/java/com/c242_ps246/mentalq/ui/main/profile/ProfileScreen.kt:164-168 | The picked image is shown iff it is non-null and non-blank; otherwise the photo URL. |
| ProfileScreens.AvatarSources | app/src/main/java/com/c242_ps246/mentalq/ui/main/profile/ProfileScreen.kt:199-203 | The screen's avatar always shows the stored photo. A picked image with a visible character wins in the dialog. (Also ProfileScreen.kt lines 299-303.) |
| ProfileScreens.StoredEmail | app/src/main/java/com/c242_ps246/mentalq/ui/main/profile/ProfileScreen.kt:240 | `userData?.email`: null without a user. (Also ProfileScreen.kt lines 359.) |
| ProfileScreens.DialogInitial | app/src/main/java/com/c242_ps246/mentalq/ui/main/profile/ProfileScreen.kt:257-263 | The dialog opens with the user's name, email and birthday, or "" for each missing one. No image is picked and no sub-dialog is shown. |
| ProfileScreens.SaveConfirmCancel | app/src/main/java/com/c242_ps246/mentalq/ui/main/profile/ProfileScreen.kt:358-365 | An unchanged email saves the fields and dismisses. A changed email is parked behind the confirmation and not saved. Confirming saves the parked email and dismisses. Cancelling restores the stored email and saves nothing. (Also ProfileScreen.kt lines 381-389.) |
| ProfileScreens.BirthdayOnlyFromPicker | app/src/main/java/com/c242_ps246/mentalq/ui/main/profile/ProfileScreen.kt:332-346 | The birthday changes only on a confirmed picker selection, and then to that selection. (Also ProfileScreen.kt lines 398-405.) |
| ProfileScreens.NoUserDataAlwaysConfirms | app/src/main/java/com/c242_ps246/mentalq/ui/main/profile/ProfileScreen.kt:359-361 | Without user data every save asks for confirmation. |
| ProfileScreens.DialogLifetime | app/src/main/java/com/c242_ps246/mentalq/ui/main/profile/ProfileScreen.kt:353-391 | Over any input, the dialog saves at most once and always dismisses right after saving. A shown confirmation holds a changed email. A changed email is saved only if the user confirmed. |
| ProfileScreens.ConfirmedSaveIsAChange | app/src/main/java/com/c242_ps246/mentalq/ui/main/profile/ProfileScreen.kt:360-361 | Confirming always saves an email different from the stored one. (Also ProfileScreen.kt lines 381-384.) |
| ProfileScreens.ProfileInfoOnSave | app/src/main/java/com/c242_ps246/mentalq/ui/main/profile/ProfileScreen.kt:219-243 | When copying or compressing a picked image throws, the save does nothing: no update and no logout. Otherwise it sends the profile update first, then asks to log out iff the saved email differs from the stored one. |
| ProfileScreens.CompressionThrowAbortsSave | app/src/main/java/com/c242_ps246/mentalq/ui/main/profile/ProfileScreen.kt:226-243 | With the compression as written, a picked photo that fits only at quality 0 makes the save send neither the update nor the logout. |
| ProfileScreens.LogoutOnlyAfterConfirmedEmailChange | app/src/main/java/com/c242_ps246/mentalq/ui/main/profile/ProfileScreen.kt:240-242 | End to end, the profile asks to log out only after the user confirmed an email change. (Also ProfileScreen.kt lines 358-391.) |
| ProfileScreens.GuardedLogout | app/src/main/java/com/c242_ps246/mentalq/ui/main/profile/ProfileScreen.kt:104-109 | The inline logout does nothing iff the screen is loading. Otherwise it logs out in the view-model, then leaves. |
| ProfileScreens.EmailChangeLogoutNeedsIdleScreen | app/src/main/java/com/c242_ps246/mentalq/ui/main/profile/ProfileScreen.kt:104-109 | The email-change logout goes through the guarded logout, so it leaves the screen iff the screen is not loading. (Also ProfileScreen.kt lines 240-242.) |
| ProfileScreens.EditProfileDialog.constructor | app/src/main/java/com/c242_ps246/mentalq/ui/main/profile/ProfileScreen.kt:252-263 | The remembered fields start as `DialogInitial`. |
| ProfileScreens.EditProfileDialog.EditName | app/src/main/java/com/c242_ps246/mentalq/ui/main/profile/ProfileScreen.kt:318-320 | Sets the name only. |
| ProfileScreens.EditProfileDialog.EditEmail | app/src/main/java/com/c242_ps246/mentalq/ui/main/profile/ProfileScreen.kt:325-327 | Sets the email only. |
| ProfileScreens.EditProfileDialog.TypeBirthday | app/src/main/java/com/c242_ps246/mentalq/ui/main/profile/ProfileScreen.kt:332-337 | Typing into the birthday field changes nothing. |
| ProfileScreens.EditProfileDialog.PickImage | app/src/main/java/com/c242_ps246/mentalq/ui/main/profile/ProfileScreen.kt:266-270 | The picker's result, null included, replaces the picked image. |
| ProfileScreens.EditProfileDialog.OpenDatePicker | app/src/main/java/com/c242_ps246/mentalq/ui/main/profile/ProfileScreen.kt:340-343 | Shows the date picker. |
| ProfileScreens.EditProfileDialog.ConfirmDate | app/src/main/java/com/c242_ps246/mentalq/ui/main/profile/ProfileScreen.kt:396-406 | A selection replaces the birthday; no selection keeps it. The picker closes either way. |
| ProfileScreens.EditProfileDialog.DismissDatePicker | app/src/main/java/com/c242_ps246/mentalq/ui/main/profile/ProfileScreen.kt:395 | Closes the picker only. (Also ProfileScreen.kt lines 411-413.) |
| ProfileScreens.EditProfileDialog.Save | app/src/main/java/com/c242_ps246/mentalq/ui/main/profile/ProfileScreen.kt:357-366 | The Save button's two branches, field by field. |
| ProfileScreens.EditProfileDialog.ConfirmEmailChange | app/src/main/java/com/c242_ps246/mentalq/ui/main/profile/ProfileScreen.kt:381-385 | Saves the parked email, which differs from the stored one, then dismisses and closes the confirmation. |
| ProfileScreens.EditProfileDialog.CancelEmailChange | app/src/main/java/com/c242_ps246/mentalq/ui/main/profile/ProfileScreen.kt:386-389 | Closes the confirmation and restores the stored email, or "". |
| ProfileScreens.EditProfileDialog.Cancel | app/src/main/java/com/c242_ps246/mentalq/ui/main/profile/ProfileScreen.kt:272 | Dismisses without saving. (Also ProfileScreen.kt lines 353-355.) |
| ProfileScreens.ProfileScreen.InlineLogout | app/src/main/java/com/c242_ps246/mentalq/ui/main/profile/ProfileScreen.kt:104-109 | Logs out and leaves only when not loading. |
| ProfileScreens.ProfileScreen.ShowLogoutDialog | app/src/main/java/com/c242_ps246/mentalq/ui/main/profile/ProfileScreen.kt:118 | Shows the logout confirmation. |
| ProfileScreens.ProfileScreen.ConfirmLogout | app/src/main/java/com/c242_ps246/mentalq/ui/main/profile/ProfileScreen.kt:125-129 | Always logs out and leaves, whatever the loading flag, and closes the dialog. |
| ProfileScreens.ProfileScreen.DismissLogoutDialog | app/src/main/java/com/c242_ps246/mentalq/ui/main/profile/ProfileScreen.kt:130 | Closes the dialog without logging out. |

## Left out

- Coroutines, `observeForever`, `stateIn(WhileSubscribed)` and the no-op `removeObserver { this }` (MidtransViewModel.kt:103) are left out. Each observer callback is one synchronous event, and interleavings are the event order.
- Repositories, DAOs, the preference store, `NotificationHelper`, `StreakWorker`, the payment SDK and `authRepository.logout()` are not part of this model. Their calls are recorded in `calls`/`effects`, and their results arrive as events.
- That a repository flow emits exactly one terminal outcome: the repositories are not part of this model, so the view-models are proved for any emission sequence.
- `AuthScreenUIState` is not part of this model. Only the `isLoading` and `error` fields that `ProfileViewModel` writes are kept, and its initial value is a parameter.
- Two different `Result` types are imported. `MidtransViewModel` imports `data.repository.Result`. The other view-models import `data.local.repository.Result`, which is not part of this model. Both are modelled by the same three-variant type.
- `ProfileInfo` calls `viewModel.updateProfile(...)`, which `ProfileViewModel` does not declare. It is modelled as the `UpdateProfile` effect only.
- The Compose UI is left out: layout, styling, theming, the navigation graph, `ChatScreen`, `BottomNavigation` and `MainScreen`. `MainScreen` calls `ProfileScreen` and `CustomNavigationBar` with signatures that do not match their definitions, so its use of `userRole` is not modelled.
- The Retrofit, OkHttp, Room, Firebase and WorkManager construction in AppModule is left out, as is the blocking read of the token. The token is the value the store holds when the request leaves.
- `fetchServerTime` (network), `uriToFile` and `createCustomTempFile` (file I/O) and `toFormattedDate` (a thin formatting wrapper) are not modelled.
- JPEG encoding is a function from bitmap and quality to byte count. `Matrix` rotation is a `Rotated` value with an integer angle instead of a float.
- The java.time and `SimpleDateFormat` parsing, locales and calendar output are opaque. `FormatDate` takes the two parse-then-format pipelines as functions. `FormatTimestamp` returns the chosen pattern and the instant.
- `System.currentTimeMillis()` is the `now` parameter.
- Utils.CompressImageSize relies on `Bitmap.compress` rejecting a quality outside 0..100 with IllegalArgumentException. That is the Android platform contract, not code in this repository. Without that check the as-written loop would not terminate when no quality fits.
- ProfileScreens.EditProfileDialog: the dialog's `userData` is fixed when it opens. A new user emission while it is open (a recomposition with a different `userData`) is not modelled.
- ProfileScreens.IsWhitespace: Kotlin's `isWhitespace` is modelled by the code points Java and Unicode class as whitespace or space separators. No other Unicode property is modelled.
- AppNavigations.Step: a callback is applied only while its screen is the current destination. The sign-in callback needs the sign-in screen on top; logout needs a main screen. `popUpTo(0) { inclusive = true }` is taken to clear the whole stack.
- The permission checks in `PreferencesSection` and the `LaunchedEffect` that calls `getUserData` are not modelled beyond the `GetUserData` event.

## Findings

| source | as written | input that shows it | evidently intended | confidence | as-written member | corrected member |
|---|---|---|---|---|---|---|
| app/src/main/java/com/c242_ps246/mentalq/ui/utils/Utils.kt:88-97 | The do-while lowers `compressQuality` by 10 after the measurement that ends the loop. The file is then written at that lowered, never-measured quality, and nothing stops the quality going below 0. `FileOutputStream(file)` is opened before `compress` throws, so the original file is already truncated to empty and the stream is never closed; `CompressThrew` does not record the lost file. | An encoder whose output exceeds 500000 bytes at qualities 60..10 and fits at 0: the loop measures 60..0, and the final `compress` at -10 throws IllegalArgumentException. | Write at the quality whose size was measured, and stop lowering at 0. The file then fits, or is written at the floor quality 0. | medium (depends on the platform's 0..100 range check); not executed | Utils.CompressImageSize, Utils.AsWrittenThrowsAfterFitAtZero | Utils.CompressImageSizeIntended, Utils.IntendedMeetsLimitOrFloor |

The lemmas `AppNavigations.UnknownSplashRoleReachesMainScreen` and `AppNavigations.UnknownRoleAfterLogoutRestoresLaunchCredentials` record behaviour of the code as written. They are not listed as findings. The launch role comes from a stored session, and the role a main screen receives is not used anywhere in this model. Whether an unknown stored role can occur cannot be decided from the code shown, so it cannot be called a defect.
