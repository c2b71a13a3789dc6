# Hana: seller lifecycle and buyer client, verified

Dafny 4.11 models of the parts of Hana whose correctness spans several requests, restarts or
screens. `dafny verify dfyconfig.toml` checks everything.

**Seller application (C# endpoints).** `SellerRows` holds the tables and `SellerHandlers` one
transaction per endpoint as a function from tables to tables; `SellerDatabase` is the same
endpoints as methods that update the tables in place. A run is any sequence of requests by
anyone. `SellerAudit` turns the rows that submission, reviews, amendments, activation,
suspensions and restores leave behind into one log per application. `SellerInvariants`,
`SellerTheorems` and `SellerReplay` prove that each consumed revision has exactly one row, that
replaying the log rebuilds the stored state, that every access check gives the answer the role
row would give, and that retried keys change nothing. `SellerEffects` and `SellerDecisions` say,
request by request and against the request's own fields, when it is accepted, what every column
holds afterwards and what is answered. `SellerPreflight` and `SellerReading` say exactly which
answers and reachable rows the browser accepts; `SellerMerge` treats concurrent edits of the first step.

**Pending commands (mobile client).** A command is written to one durable slot, posted under an
idempotency key and cleared on a definite answer. `PendingController` has the controllers'
code between awaits, as values; `NativeIncidents` is the incident controller as a class and
`SingleCommand` the skeleton of the other five;
`PendingWorld` lets any number of controllers, the device and a lossy network take steps in any
order, with crashes and storage faults. `PendingInvariants` and `PendingPreservation` have the
protocol invariant, `PendingHistory` reads the history of a run off its steps, and
`PendingTheorems` and `PendingPhotos` prove what every run keeps. `PendingPlay` continues runs
step by step; with it `PendingRuns` exhibits the runs where a promise fails, and `PendingBreaks`
shows that every save a theorem excludes leads to such a run. `PendingDiscipline` states a
discipline the incidents screen could follow, and `PendingSerial` and `PendingKept` prove that
it keeps every promise on every run. `PendingReports` proves that what the server is told is what
the buyer entered, `PendingLocks` that a locked controller always has one command under way, and
`PendingScreens` what each press and answer does to a screen. `Json`, `PendingCodec` and
`PendingForms` treat the stored text, `PendingStore` is the store class, and `PendingRecords` tells
from the outside what it takes, keeps, reads and restores.

**Catalogue screen.** `BrowseController` (steps and runs), `BuyerBrowse` (the class) and
`BrowseActions` (each action and reply in terms of what was selected and asked).

**Smaller cores.** `Money`, `MapTiles`, `DeepLink` and `LinkFacts` with `Utf8`, `ImportFile`, and
the text primitives `Utf16` and `TextFacts`.

Promises that the code does not keep in general. Each has a lemma with a run or input that
shows it, and a theorem with the condition under which the promise holds:

- A seller name made only of byte order marks passes the server's cleaning and is blank to the
  browser, which then refuses the whole registration (`InvisibleNameIsUnreadable`).
  `ReachableRowsLoad` has the exact condition.
- Two reports can be posted for one upload, because a save may write the upload into the empty
  slot again after its report was settled (`SecondReport`, with two controllers; `StaleResume`,
  with a single one that is opened once and never left). `OneReportPerUpload` holds without
  such a save, and `RespendBreaks` continues every run that ends with one to a second report, as
  long as the photo file exists or the controller is still on screen.
- A resume that overlaps another upload of the same controller can store the new key with the
  old photo (`CrossedUpload`). `OneBodyPerKey` holds unless a save names the photo of another
  picture; `CrossBreaks` continues every run that posts after such a save, with the photo still
  there, to a second body for the key.
- After a refused report whose move to the discard meets one storage fault, the draft keeps a
  photo whose file is deleted, and the next report is stored and posted without its photo, so
  no restart can rebuild it (`PhotoLost`). `WriteAhead` and `PhotoAlwaysThere` say exactly which
  saves and edits cause that.
- The store accepts bodies whose record it will later refuse to read (`TooBigToRead`); the
  bodies the screens build are never among them (`SaveThenRestore`).

The second and the third cannot happen when the incidents screen is opened only after every
earlier controller of it has been stopped and waits for nothing but lists, and its buttons work
only while its controller is on screen and waits for nothing but lists, so that a restore, a
resume and an expiry count as busy (`DisciplinedPromises`). The fourth then happens only through
a refused report whose move to the discard fails (`DisciplinedPhotos`); the run of `PhotoLost`
is disciplined, so that event cannot be left out.

## Model

| member | source | states |
|---|---|---|
| SellerDatabase.Database.SaveStore | apps/api/Hana.Api/SellerRegistrationEndpoints.cs:118-205 | creating or editing step 1 changes the tables and answers exactly as the handler specification: a compare-and-swap on the revision the client sent |
| SellerDatabase.Database.SaveApplicantType | apps/api/Hana.Api/SellerRegistrationEndpoints.cs:216-290 | choosing the applicant type moves a draft to step 2 and erases every identity field |
| SellerDatabase.Database.VerifyNatural | apps/api/Hana.Api/SellerRegistrationEndpoints.cs:292-402 | a natural person's identity is stored only with a valid national code, the verified phone and the expected revision |
| SellerDatabase.Database.SaveLegal | apps/api/Hana.Api/SellerRegistrationEndpoints.cs:411-498 | a legal person's identity is recorded under the same compare-and-swap |
| SellerDatabase.Database.SaveBusiness | apps/api/Hana.Api/SellerBusinessInformationEndpoints.cs:58-158 | step 3 to 4, refused for an unknown or inactive category |
| SellerDatabase.Database.SaveActivity | apps/api/Hana.Api/SellerActivityAreaEndpoints.cs:15-147 | step 4 to 5, refused for a city outside the province or half a coordinate pair |
| SellerDatabase.Database.SaveAdditional | apps/api/Hana.Api/SellerAdditionalInformationEndpoints.cs:19-144 | step 5 to 6; a given optional field that does not clean is refused, an absent one is stored as absent |
| SellerDatabase.Database.Submit | apps/api/Hana.Api/SellerRegistrationEndpoints.cs:507-604 | submission writes key, consumed revision, time and tracking code together, replays the same key and refuses every other |
| SellerDatabase.Database.Review | apps/api/Hana.Api/AdminSellerApplicationEndpoints.cs:183-330 | the decision row and the application's review change in one transaction or not at all |
| SellerDatabase.Database.SaveAmendment | apps/api/Hana.Api/SellerApplicationAmendmentEndpoints.cs:71-169 | the open amendment is created or rewritten in place for the current information request |
| SellerDatabase.Database.Resubmit | apps/api/Hana.Api/SellerApplicationAmendmentEndpoints.cs:179-257 | closing the amendment and returning to review consume one revision together |
| SellerDatabase.Database.Activate | apps/api/Hana.Api/AdminSellerActivationEndpoints.cs:34-167 | activation, role grant and audit row are one transition out of APPROVED |
| SellerDatabase.Database.Suspend | apps/api/Hana.Api/AdminSellerSuspensionEndpoints.cs:17-110 | suspension row in, role row out, one revision |
| SellerDatabase.Database.Restore | apps/api/Hana.Api/AdminSellerSuspensionEndpoints.cs:112-196 | the open suspension is closed in place, the role row returns, one revision |
| SellerDatabase.Database.Serve | apps/api/Hana.Api/SellerRegistrationEndpoints.cs:118-604 | any request served on valid tables leaves them valid |
| SellerEffects.StoreStored | apps/api/Hana.Api/SellerRegistrationEndpoints.cs:118-205 | when step 1 is accepted, and that a new draft or the edited row then has exactly the request's six fields, the next revision and nothing else changed |
| SellerEffects.ApplicantTypeStored | apps/api/Hana.Api/SellerRegistrationEndpoints.cs:216-290 | when the applicant type is accepted; the row has that type, step 2 and no identity columns, every other column as before |
| SellerEffects.NaturalStored | apps/api/Hana.Api/SellerRegistrationEndpoints.cs:292-402 | which of six answers a natural verification gets; accepted, it stores exactly that code as verified |
| SellerEffects.NationalCodeDigits | apps/api/Hana.Api/SellerIdentityInputValidation.cs:26-38 | a national code is ten digits, not all alike, with the check digit that the weights 10 to 2 modulo 11 demand |
| SellerEffects.LegalStored | apps/api/Hana.Api/SellerRegistrationEndpoints.cs:411-498 | when a legal identity is accepted; each of its four columns is the request's field of that name, the names cleaned |
| SellerEffects.BusinessStored | apps/api/Hana.Api/SellerBusinessInformationEndpoints.cs:58-158 | when step 4 is reached; each business column is the request's field of that name |
| SellerEffects.ActivityStored | apps/api/Hana.Api/SellerActivityAreaEndpoints.cs:15-147 | when step 5 is reached; province, city, address, coordinates, hours, delivery, pickup and area are the request's own |
| SellerEffects.AdditionalStored | apps/api/Hana.Api/SellerAdditionalInformationEndpoints.cs:19-144 | when step 6 is reached; each contact column is the request's field of that name, absent where none was given |
| SellerDecisions.SubmitStored | apps/api/Hana.Api/SellerRegistrationEndpoints.cs:507-604 | which answer a submission gets in every case, what it stores, and what a repetition is answered |
| SellerDecisions.TrackingCodeSpells | apps/api/Hana.Api/SellerRegistrationEndpoints.cs:616-622 | the code spells the first eight bytes of the digest in upper-case hexadecimal |
| SellerDecisions.SubmissionReceipt | apps/api/Hana.Api/SellerRegistrationEndpoints.cs:563-600 | after any further requests of anyone, repeating a submission changes nothing and gives the first time and tracking code with the present revision and review |
| SellerDecisions.ReviewStored | apps/api/Hana.Api/AdminSellerApplicationEndpoints.cs:183-330 | which answer a review gets in every case; accepted, row and review row hold the decision that was sent, with its cleaned reason and the admin, and nothing else changes |
| SellerDecisions.ReviewRepeated | apps/api/Hana.Api/AdminSellerApplicationEndpoints.cs:222-262 | a used decision key is answered from the present row exactly if the same admin sends the same decision, reason and revision |
| SellerDecisions.ReviewRowsWereSent | apps/api/Hana.Api/AdminSellerApplicationEndpoints.cs:263-304 | in every run each review row is a review some request asked for, decision for decision |
| SellerDecisions.ActivationWasApproved | apps/api/Hana.Api/AdminSellerActivationEndpoints.cs:95-117 | in every run an activated application was approved by a request of the admin its row names |
| SellerDecisions.AmendmentCreated | apps/api/Hana.Api/SellerApplicationAmendmentEndpoints.cs:71-169 | when an amendment is created, and that it holds the applicant's answer to the present request |
| SellerDecisions.AmendmentRewritten | apps/api/Hana.Api/SellerApplicationAmendmentEndpoints.cs:106-152 | when the open amendment is rewritten, and which of its columns change |
| SellerDecisions.ResubmitStored | apps/api/Hana.Api/SellerApplicationAmendmentEndpoints.cs:179-257 | which answer a resubmission gets in every case, and that it closes that amendment and empties the review |
| SellerDecisions.AccessAnswersAreTrue | apps/api/Hana.Api/AdminSellerSuspensionEndpoints.cs:198-228 | after any run every field of an access answer is what the tables say: activated if and only if there is an activation row, suspended if and only if some suspension is open, revision and review of the row |
| SellerDecisions.ActivationStored | apps/api/Hana.Api/AdminSellerActivationEndpoints.cs:34-167 | when an activation is accepted, and that it records the admin and the time, grants the role and consumes one revision |
| SellerDecisions.SuspensionStored | apps/api/Hana.Api/AdminSellerSuspensionEndpoints.cs:17-110 | when a suspension is accepted, and that its row has the request's reason, key, revision and admin |
| SellerDecisions.RestoreStored | apps/api/Hana.Api/AdminSellerSuspensionEndpoints.cs:112-196 | when a restore is accepted, and that it closes the one open suspension in the restoring admin's name |
| TextFacts.BlankUnits | apps/api/Hana.Api/SellerIdentityInputValidation.cs:56-63 | the white space of both platforms, unit by unit |
| TextFacts.TrimCuts | apps/api/Hana.Api/SellerIdentityInputValidation.cs:56-63 | trimming cuts the longest blank beginning and end and nothing else |
| TextFacts.CleanedIs | apps/api/Hana.Api/SellerIdentityInputValidation.cs:56-63 | what is stored for a text, and exactly when it is refused |
| TextFacts.UuidGroups | packages/buyer-commerce/contracts.ts:2-3 | an identifier is five groups of hexadecimal digits with a version and a variant |
| Utf16.TrimEnds | apps/api/Hana.Api/SellerIdentityInputValidation.cs:56-63 | trimming leaves text with visible ends, empty exactly when all of it is blank |
| Utf16.CleanText | apps/api/Hana.Api/SellerIdentityInputValidation.cs:56-63 | cleaned text is trimmed, within its limit and free of control characters |
| SellerInvariants.UniqueReview | src/Hana.Infrastructure/Seller/HanaSellerDbContext.cs:374-378 | a committed review never repeats a decision key |
| SellerInvariants.UniqueActivation | src/Hana.Infrastructure/Seller/HanaSellerDbContext.cs:289-293 | a committed activation repeats neither a key nor an application |
| SellerInvariants.UniqueSuspension | src/Hana.Infrastructure/Seller/HanaSellerDbContext.cs:331-341 | a committed suspension is the only open one of its application and its key is new |
| SellerInvariants.UniqueRestoration | src/Hana.Infrastructure/Seller/HanaSellerDbContext.cs:331-341 | closing a suspension uses a new restore key |
| SellerInvariants.HandleKeeps | apps/api/Hana.Api/AdminSellerSuspensionEndpoints.cs:62-99 | every request keeps the invariant tying rows, audit tables, unique keys and roles together |
| SellerInvariants.ReviewKeeps | apps/api/Hana.Api/AdminSellerApplicationEndpoints.cs:263-306 | a review keeps the invariant, including the log of every other application |
| SellerInvariants.ResubmitKeeps | apps/api/Hana.Api/SellerApplicationAmendmentEndpoints.cs:211-246 | a resubmission keeps the invariant |
| SellerInvariants.AmendmentKeeps | apps/api/Hana.Api/SellerApplicationAmendmentEndpoints.cs:106-152 | saving an amendment touches no column the audit log reads |
| SellerInvariants.ActivateKeeps | apps/api/Hana.Api/AdminSellerActivationEndpoints.cs:100-158 | an activation keeps the invariant |
| SellerInvariants.SuspendKeeps | apps/api/Hana.Api/AdminSellerSuspensionEndpoints.cs:62-99 | a suspension keeps the invariant |
| SellerInvariants.RestoreKeeps | apps/api/Hana.Api/AdminSellerSuspensionEndpoints.cs:157-184 | a restore keeps the invariant |
| SellerInvariants.SubmitKeeps | apps/api/Hana.Api/SellerRegistrationEndpoints.cs:547-562 | a submission starts the log of its application |
| SellerTheorems.RevisionsConsumedOnce | apps/api/Hana.Api/SellerRegistrationEndpoints.cs:547-562 | in every run the consumed revisions of a submitted application are exactly the interval from the submission's to the current one, each used by exactly one row |
| SellerTheorems.AuditRebuildsRow | apps/api/Hana.Api/AdminSellerApplicationEndpoints.cs:263-304 | replaying the audit rows in revision order rebuilds review, activation and open suspension |
| SellerTheorems.TrailGrammar | apps/api/Hana.Api/AdminSellerActivationEndpoints.cs:95-117 | in every run the audit rows of a submitted application, revision by revision, begin with the submission and follow only allowed successions; reviews alternate with resubmissions, suspensions are disjoint, and after the activation come only suspensions and restores |
| SellerTheorems.DraftLeavesNoTrail | apps/api/Hana.Api/SellerRegistrationEndpoints.cs:517-562 | an application that is not submitted has no audit row at any revision |
| SellerAudit.LogGrammar | apps/api/Hana.Api/AdminSellerSuspensionEndpoints.cs:64-66 | a log that replays contains only allowed successions of events |
| SellerAudit.ReviewsAlternate | apps/api/Hana.Api/SellerApplicationAmendmentEndpoints.cs:235-244 | between two reviews there is a resubmission, and the earlier one asked for information |
| SellerAudit.AccessOnwards | apps/api/Hana.Api/AdminSellerActivationEndpoints.cs:100-117 | after an activation no review or resubmission follows |
| SellerAudit.SuspensionsDisjoint | apps/api/Hana.Api/AdminSellerSuspensionEndpoints.cs:153-176 | between two suspensions there is a restore |
| SellerAudit.ActivatedOnce | apps/api/Hana.Api/AdminSellerActivationEndpoints.cs:95-117 | an application is activated at most once |
| SellerTheorems.AccessChecksAgree | apps/api/Hana.Api/SellerAccessEndpoints.cs:38-75 | the role row exists exactly while activated and not suspended, and every access check agrees with it |
| SellerTheorems.OpenAmendmentIsCurrent | apps/api/Hana.Api/SellerApplicationAmendmentEndpoints.cs:106-152 | an open amendment is the only one, answers the current request and carries its revision and reason |
| SellerReplay.SubmissionIsFinal | apps/api/Hana.Api/AdminSellerApplicationEndpoints.cs:263-276 | applicant data, submission key and tracking code never change after submission; APPROVED, REJECTED and an activation are never left |
| SellerReplay.SameRevisionSameRow | apps/api/Hana.Api/SellerRegistrationEndpoints.cs:172-196 | a revision names the row's contents: at the same revision the whole row is the same |
| SellerReplay.RepeatIsStutter | apps/api/Hana.Api/AdminSellerApplicationEndpoints.cs:236-256 | repeating a committed key with the same payload changes nothing and is accepted |
| SellerReplay.ReuseIsRefused | apps/api/Hana.Api/AdminSellerSuspensionEndpoints.cs:39-54 | a committed key with another payload is refused and changes nothing |
| SellerReplay.AcceptedIsCommitted | apps/api/Hana.Api/AdminSellerActivationEndpoints.cs:57-93 | whatever the server accepts under a key is committed under it |
| SellerReplay.CommittedStaysOverRun | apps/api/Hana.Api/SellerRegistrationEndpoints.cs:564-604 | a committed key stays committed through any further requests |
| SellerReplay.RetryIsHarmless | apps/api/Hana.Api/AdminSellerSuspensionEndpoints.cs:131-145 | an accepted request retried at any later time leaves the tables unchanged |
| SellerReplay.RepeatsAreStutters | apps/api/Hana.Api/SellerRegistrationEndpoints.cs:564-604 | deleting every repeated request from any run leaves the same final tables |
| SellerPreflight.ReachableRowsLoad | apps/web-marketplace/lib/seller-draft-preflight.ts:102-411 | the browser accepts a reachable row if and only if its references resolve, its revision fits and no text is blank to ECMAScript; it then restores drafts and shows submissions, which always have step 6 |
| SellerReading.StatusesRead | apps/web-marketplace/lib/seller-draft-preflight.ts:110-112 | 401 is signed out, 404 is a new registration, any other status is unavailable |
| SellerReading.AnswersRead | apps/web-marketplace/lib/seller-draft-preflight.ts:113-411 | which bodies the browser accepts, written out field by field, and that it then restores or shows exactly what it read |
| SellerReading.ViewShowsRow | apps/api/Hana.Api/SellerRegistrationEndpoints.cs:19-116 | the answer shows the columns of the row, the names of its references and the last four digits of its code |
| SellerPreflight.TrackingCodePattern | apps/api/Hana.Api/SellerRegistrationEndpoints.cs:615-622 | every tracking code has the form the browser expects |
| SellerPreflight.InvisibleCleanedText | apps/api/Hana.Api/SellerIdentityInputValidation.cs:56-63 | text the server cleaned is blank to the browser only if it starts and ends with a byte order mark |
| SellerPreflight.InvisibleNameIsUnreadable | apps/api/Hana.Api/SellerBusinessInformationEndpoints.cs:70-158 | a run that stores such a name makes the registration unavailable in the browser |
| SellerMerge.AskedWhereContested | apps/web-marketplace/lib/seller-field-merge.ts:20-36 | the user is asked exactly about fields both sides changed to different values |
| SellerMerge.RefusedWhileUndecided | apps/web-marketplace/lib/seller-field-merge.ts:38-52 | a merge is refused exactly while such a field is undecided |
| SellerMerge.MergeIsThreeWay | apps/web-marketplace/lib/seller-field-merge.ts:38-67 | every other field is its three-way merge, and "saved" means equal to the server copy |
| SellerMerge.DisjointEditsSurvive | apps/web-marketplace/lib/seller-field-merge.ts:20-67 | edits of different fields merge without a question and both survive |
| SellerMerge.SaveOverwritesWhatWasRead | apps/api/Hana.Api/SellerRegistrationEndpoints.cs:172-196 | a successful save overwrites exactly the row its tab had read, over any runs in between |
| NativeIncidents.NativeIncidentsController.Refresh | apps/mobile-consumer/src/buyer-incidents-controller.ts:72-72 | a refresh is refused while locked or holding a command; otherwise it supersedes earlier ones |
| NativeIncidents.NativeIncidentsController.AfterLoad | apps/mobile-consumer/src/buyer-incidents-controller.ts:72-72 | late loads of a superseded epoch change nothing |
| NativeIncidents.NativeIncidentsController.EditPhoto | apps/mobile-consumer/src/buyer-incidents-controller.ts:73-78 | only an idle controller's draft changes, and the replaced photo is named for deletion |
| NativeIncidents.NativeIncidentsController.Report | apps/mobile-consumer/src/buyer-incidents-controller.ts:81-82 | a report is begun exactly by an idle controller with a loaded order and a picture when the screen's other checks pass; it freezes the draft as snapshot and holds the upload |
| NativeIncidents.NativeIncidentsController.ConfirmReturn | apps/mobile-consumer/src/buyer-incidents-controller.ts:83-83 | confirming a return the buyer consented to holds a single command, on an idle controller only |
| NativeIncidents.NativeIncidentsController.Retry | apps/mobile-consumer/src/buyer-incidents-controller.ts:84-96 | retry resumes, expires or locks and saves, in that order of precedence |
| NativeIncidents.NativeIncidentsController.AfterSave | apps/mobile-consumer/src/buyer-incidents-controller.ts:95-97 | nothing is posted unless the save succeeded |
| NativeIncidents.NativeIncidentsController.AfterReply | apps/mobile-consumer/src/buyer-incidents-controller.ts:97-138 | which reply leads to the report, the discard, a clear or a kept command |
| NativeIncidents.NativeIncidentsController.AfterAdvance | apps/mobile-consumer/src/buyer-incidents-controller.ts:34-42 | the follow-up is held only once the slot has it |
| NativeIncidents.NativeIncidentsController.AfterClear | apps/mobile-consumer/src/buyer-incidents-controller.ts:116-154 | what a settled command leaves in the controller, by outcome and command |
| NativeIncidents.NativeIncidentsController.AfterRestore | apps/mobile-consumer/src/buyer-incidents-controller.ts:43-58 | a restored command brings its order and snapshot |
| NativeIncidents.NativeIncidentsController.AfterResume | apps/mobile-consumer/src/buyer-incidents-controller.ts:59-71 | the command is shown once the lists loaded and the screen is still there |
| PendingScreens.ReportPressed | apps/mobile-consumer/src/buyer-incidents-controller.ts:81-82 | when a report is begun, that it sends the picture and freezes the form, and that a second press does nothing |
| PendingScreens.FormEdited | apps/mobile-consumer/src/buyer-incidents-controller.ts:73-78 | the form changes exactly on an idle screen, and which photo file an edit leaves |
| PendingScreens.RetryPressed | apps/mobile-consumer/src/buyer-incidents-controller.ts:84-94 | which of nothing, restore, expiry and save a retry is, in every state, and what the save carries |
| PendingScreens.IncidentsAnswered | apps/mobile-consumer/src/buyer-incidents-controller.ts:97-154 | what every answer leads to: report, discard, clear or nothing, with the contents of what is sent next; a discard refused by an expired session stays |
| PendingScreens.PlainAnswered | apps/mobile-consumer/src/buyer-wallet-controller.ts:157-200 | the other screens clear after every definite answer |
| PendingScreens.AdvanceAnswered | apps/mobile-consumer/src/buyer-incidents-controller.ts:34-42 | what is held after a follow-up was or was not stored |
| PendingScreens.ClearAnswered | apps/mobile-consumer/src/buyer-incidents-controller.ts:116-154 | what form, snapshot and command a settled command leaves, for every outcome |
| PendingScreens.RestoreAnswered | apps/mobile-consumer/src/buyer-incidents-controller.ts:43-58 | what a restored command brings back before and without lists |
| PendingScreens.ResumeAnswered | apps/mobile-consumer/src/buyer-incidents-controller.ts:59-71 | the command is held and its form shown only once lists are loaded on a present screen |
| PendingScreens.ListsLoaded | apps/mobile-consumer/src/buyer-incidents-controller.ts:72-72 | only the current load is shown, and only an expired session empties the form |
| SingleCommand.SingleCommandController.Load | apps/mobile-consumer/src/buyer-support-controller.ts:88-111 | a load supersedes whatever is in flight |
| SingleCommand.SingleCommandController.Refresh | apps/mobile-consumer/src/buyer-wallet-controller.ts:120-123 | a refresh is refused while locked and, except on the cart and checkout screens, while a command is held; otherwise it loads |
| SingleCommand.SingleCommandController.AfterLoad | apps/mobile-consumer/src/buyer-support-controller.ts:92-110 | a superseded load changes nothing |
| SingleCommand.SingleCommandController.Request | apps/mobile-consumer/src/buyer-cart-controller.ts:33-36 | a new command is held exactly when the screen's form allows it and the controller is idle without one |
| SingleCommand.SingleCommandController.Retry | apps/mobile-consumer/src/buyer-orders-controller.ts:32-33 | retry locks and saves before anything is posted |
| SingleCommand.SingleCommandController.AfterReply | apps/mobile-consumer/src/buyer-support-controller.ts:156-172 | every definite answer leads to a clear, 503 keeps the command |
| SingleCommand.SingleCommandController.AfterClear | apps/mobile-consumer/src/buyer-cart-controller.ts:41-54 | the command is dropped only by the attempt it belongs to |
| SingleCommand.SingleCommandController.AfterRestore | apps/mobile-consumer/src/buyer-wallet-controller.ts:66-86 | a restored command is taken over, even after a stop |
| PendingPreservation.SavedKeeps | apps/mobile-consumer/src/pending-commerce.ts:198-212 | a save by any controller keeps the protocol invariant |
| PendingPreservation.RepliedKeeps | apps/mobile-consumer/src/buyer-wallet-controller.ts:157-200 | every answer, lost answer or late answer keeps it |
| PendingPreservation.AdvancedKeeps | apps/mobile-consumer/src/pending-commerce.ts:214-226 | advancing to a follow-up keeps it, faults included |
| PendingPreservation.ClearedKeeps | apps/mobile-consumer/src/pending-commerce.ts:251-262 | clearing or abandoning keeps it |
| PendingPreservation.RestoredKeeps | apps/mobile-consumer/src/pending-commerce.ts:228-249 | restoring keeps it |
| PendingPreservation.NextKeeps | apps/mobile-consumer/src/buyer-incidents-controller.ts:84-156 | every step of every controller, the server and the device keeps the invariant |
| PendingTheorems.PostStep | apps/mobile-consumer/src/buyer-incidents-controller.ts:95-97 | when a command is posted the slot has its key, and a restore gives back exactly that command if and only if the save names no photo that is gone or shows another picture |
| PendingTheorems.WriteAhead | apps/mobile-consumer/src/pending-commerce.ts:198-212 | a command is posted exactly by a save that put its key into the slot; in a run every command is, when posted, just what a restore would rebuild if and only if no posting save names a photo that is gone or shows another picture |
| PendingTheorems.OneUnresolved | apps/mobile-consumer/src/buyer-wallet-controller.ts:157-200 | at most one posted command lacks a definite answer, and it is the one in the slot; only uploads are ever abandoned |
| PendingTheorems.OneBodyPerKey | apps/mobile-consumer/src/mobile-commerce.ts:21-28 | a key is posted with one path and body; for uploads unless a save stored one with the photo of another picture |
| PendingTheorems.CrossingNeedsOverlap | apps/mobile-consumer/src/buyer-incidents-controller.ts:43-66 | a save names the photo of another picture only after a resume overlapped another upload of its controller |
| PendingTheorems.OneReportPerUpload | apps/mobile-consumer/src/buyer-incidents-controller.ts:94-156 | at most one report key is posted per upload key in every run in which no save writes an upload into the empty slot after its evidence was reported |
| PendingTheorems.EvidenceIsTheUploads | apps/mobile-consumer/src/buyer-incidents-controller.ts:111-113 | reports and discards name evidence the server gave for a stored upload |
| PendingTheorems.FollowUpHeld | apps/mobile-consumer/src/pending-commerce.ts:214-226 | once a confirmed upload is processed the slot keeps the follow-up until it is answered, through any steps |
| PendingTheorems.StoredUntilSettled | apps/mobile-consumer/src/buyer-incidents-controller.ts:137-151 | in every run a stored command other than an upload stays in the slot and restorable until the step that brings it a settling answer |
| PendingTheorems.DiscardStays | apps/mobile-consumer/src/buyer-incidents-controller.ts:137-151 | in every run a stored discard stays restorable on the incidents screen until it succeeded or was refused for another reason than an expired session, through 401, 503, lost answers and crashes |
| PendingLocks.OneUnderWay | apps/mobile-consumer/src/buyer-incidents-controller.ts:84-95 | in every run a controller of any screen but the cart is locked exactly while one of its commands is between retry and end, and never two are |
| PendingPhotos.PhotoStep | apps/mobile-consumer/src/buyer-incidents-controller.ts:73-77 | a step loses the photo of a stored upload if and only if it is one of two kinds |
| PendingPhotos.PhotoAlwaysThere | apps/mobile-consumer/src/pending-commerce.ts:251-272 | over a run, the stored upload's photo always exists exactly when no step is of those kinds |
| PendingBreaks.RespendBreaks | apps/mobile-consumer/src/pending-commerce.ts:203-211 | every run whose last step is such a save goes on to two posted reports, when the photo file exists or the controller is still on screen with its order |
| PendingBreaks.CrossBreaks | apps/mobile-consumer/src/pending-commerce.ts:228-240 | every run that posts an upload while its record names another readable picture goes on to post the key with that picture |
| PendingSerial.TidyNext | apps/mobile-consumer/src/buyer-incidents-controller.ts:84-156 | every disciplined step, whatever storage, server and crashes do, keeps at most one live incidents controller and one waiting method of it |
| PendingSerial.DisciplineSuffices | apps/mobile-consumer/src/buyer-incidents-controller.ts:18-18 | in a disciplined run no save respends an upload or names another picture, and no resume overlaps an upload |
| PendingSerial.DisciplinedPromises | apps/mobile-consumer/src/buyer-incidents-controller.ts:43-156 | in a disciplined run at most one report is posted per upload and one path and body per key, across all crashes |
| PendingReports.TruthNext | apps/mobile-consumer/src/buyer-incidents-controller.ts:81-113 | every disciplined step keeps snapshot, stored context and reports in agreement with what was entered |
| PendingReports.ReportsSayWhatWasEntered | apps/mobile-consumer/src/buyer-incidents-controller.ts:111-113 | in a disciplined run every posted report names the order and claim that were on screen when the buyer pressed report for the upload whose evidence it names |
| PendingReports.UploadsShowThePicture | apps/mobile-consumer/src/buyer-incidents-controller.ts:81-82 | in a disciplined run every posted upload carries the picture that was on screen at its press |
| PendingKept.KeptNext | apps/mobile-consumer/src/buyer-incidents-controller.ts:73-78 | every disciplined step except a failed move to the discard keeps the photo of each held upload and each reportable draft |
| PendingKept.DisciplinedPhotos | apps/mobile-consumer/src/buyer-incidents-controller.ts:125-148 | in a disciplined run without a failed move to the discard the stored upload's photo always exists and every posted command is what a restore would rebuild |
| PendingRuns.SecondReport | apps/mobile-consumer/src/pending-commerce.ts:203-211 | a run of two controllers that posts two reports for one upload |
| PendingRuns.CrossedUpload | apps/mobile-consumer/src/buyer-incidents-controller.ts:43-66 | a run in which a stored upload names another report's photo |
| PendingRuns.StaleResume | apps/mobile-consumer/src/buyer-incidents-controller.ts:43-71 | a run of one controller, opened once and never left or killed, that posts two reports for one upload |
| PendingRuns.PhotoLost | apps/mobile-consumer/src/buyer-incidents-controller.ts:130-148 | a disciplined run of one controller with one storage fault that stores and posts an upload no restore can rebuild |
| Decimal.ValueOfDigits | apps/mobile-consumer/src/buyer-link.ts:68-69 | printed numbers read back |
| Json.CharsRoundTrip | apps/mobile-consumer/src/pending-commerce.ts:211-211 | every string, lone surrogates included, survives printing and parsing |
| Json.RoundTrip | apps/mobile-consumer/src/pending-commerce.ts:90-94 | parsing printed JSON gives the value back |
| JsonFacts.ParsedIsWellFormed | apps/mobile-consumer/src/pending-commerce.ts:108-115 | whatever parses can be printed, and reads back the same |
| JsonFacts.EscapeTwice | apps/mobile-consumer/src/pending-commerce.ts:173-174 | text escaped twice is at most seven times as long |
| JsonFacts.PrintedCost | apps/mobile-consumer/src/pending-commerce.ts:173-184 | a bound on a body's length inside the record's text |
| PendingCodec.StoredRoundTrip | apps/mobile-consumer/src/pending-commerce.ts:90-125 | a stored record reads back as itself if and only if its text is within 16384 units |
| PendingForms.FormsStayReadable | apps/mobile-consumer/src/buyer-support-controller.ts:123-136 | for every body the screens build the stored record is readable |
| PendingForms.UploadsStayReadable | apps/mobile-consumer/src/pending-commerce.ts:159-172 | a stored upload is readable |
| PendingForms.TargetLength | apps/mobile-consumer/src/mobile-commerce.ts:9-20 | a path the transport accepts has at most 70 units |
| PendingForms.TooBigToRead | apps/mobile-consumer/src/pending-commerce.ts:91-91 | a body of 8192 units whose record is stored and never readable |
| PendingStore.SavedIsRestored | apps/mobile-consumer/src/pending-commerce.ts:228-249 | restore returns the identical path, body and key, uploads rebuilt from the photo; saving that again writes nothing |
| PendingStore.SaveThenRestore | apps/mobile-consumer/src/pending-commerce.ts:198-249 | for every body the screens build, what the store writes gives back the identical command after a restart, and saving it again writes nothing |
| PendingStore.UploadIsEvidence | apps/mobile-consumer/src/pending-commerce.ts:162-167 | the body the screen builds for an upload passes the store's check |
| PendingRecords.ScreensSend | apps/mobile-consumer/src/pending-commerce.ts:52-68 | pattern and transport together admit, for every screen and every text, exactly the requests listed for that screen |
| PendingRecords.RecordMade | apps/mobile-consumer/src/pending-commerce.ts:148-186 | which requests the store takes, with every limit, and what it keeps of them |
| PendingRecords.RecordRead | apps/mobile-consumer/src/pending-commerce.ts:90-133 | exactly which texts are read back as which record |
| PendingRecords.LastMember | apps/mobile-consumer/src/pending-commerce.ts:93-95 | of several members with one name the last counts |
| PendingRecords.RestoreGives | apps/mobile-consumer/src/pending-commerce.ts:228-249 | what a restore gives for any text, any photos and any screen |
| PendingRecords.RestoredIsAccepted | apps/mobile-consumer/src/pending-commerce.ts:198-249 | whatever text the slot holds, a command restored from it makes the stored record again, so saving it is accepted and writes nothing |
| PendingRecords.FormSays | apps/mobile-consumer/src/mobile-commerce.ts:21-28 | the body a screen posts reads back as the fields the buyer filled in, under their names |
| PendingStore.MobilePendingCommerceStore.Stored | apps/mobile-consumer/src/pending-commerce.ts:140-146 | nothing, the record, or an exception for unreadable text |
| PendingStore.MobilePendingCommerceStore.Save | apps/mobile-consumer/src/pending-commerce.ts:198-212 | the text afterwards, and that it refines the slot's save |
| PendingStore.MobilePendingCommerceStore.Advance | apps/mobile-consumer/src/pending-commerce.ts:214-226 | replaces exactly the expected record |
| PendingStore.MobilePendingCommerceStore.Restored | apps/mobile-consumer/src/pending-commerce.ts:228-249 | gives the stored command of one screen only |
| PendingStore.MobilePendingCommerceStore.Clear | apps/mobile-consumer/src/pending-commerce.ts:251-262 | removes exactly the expected record and its photo |
| PendingStore.MobilePendingCommerceStore.CleanupPhotos | apps/mobile-consumer/src/pending-commerce.ts:268-271 | keeps exactly the stored command's photo |
| BrowseController.NoStalePage | apps/mobile-consumer/src/buyer-browse-controller.ts:81-217 | after every step a loaded page is for the current search, page and category, a known selection is listed, and one product request is live |
| BrowseController.NextKeeps | apps/mobile-consumer/src/buyer-browse-controller.ts:95-149 | every user action and every reply, late or removing the selection, keeps the invariant |
| BrowseController.CanonicalFilter | apps/mobile-consumer/src/buyer-browse-controller.ts:120-124 | taking over the listed spelling of the category changes no query |
| BrowseController.Published | apps/mobile-consumer/src/buyer-browse-controller.ts:105-107 | the listed category with the same identifier up to letter case, if there is one |
| BrowseActions.FirstPublished | apps/mobile-consumer/src/buyer-browse-controller.ts:105-107 | the first entry of the list with that identifier in any letter case |
| BrowseActions.Searched | apps/mobile-consumer/src/buyer-browse-controller.ts:188-199 | an accepted search asks page 1 of the trimmed text in the same category; a refused one changes nothing |
| BrowseActions.Chosen | apps/mobile-consumer/src/buyer-browse-controller.ts:175-186 | an accepted choice asks page 1 of that category with the same search text; a refused one changes nothing |
| BrowseActions.WentBack | apps/mobile-consumer/src/buyer-browse-controller.ts:201-207 | when a step back is accepted; it asks the page before and changes nothing else |
| BrowseActions.WentOn | apps/mobile-consumer/src/buyer-browse-controller.ts:209-217 | when a step forward is accepted, within 10000 pages and the total; it asks the page after and changes nothing else |
| BrowseActions.Followed | apps/mobile-consumer/src/buyer-browse-controller.ts:156-173 | what is selected and asked after a link, and when its category is dropped |
| BrowseActions.Started | apps/mobile-consumer/src/buyer-browse-controller.ts:70-75 | the two requests of a start |
| BrowseActions.Stopped | apps/mobile-consumer/src/buyer-browse-controller.ts:77-83 | a stop aborts both requests |
| BrowseActions.CategoriesAnswered | apps/mobile-consumer/src/buyer-browse-controller.ts:95-125 | what each category reply does to list, selection and page |
| BrowseActions.ProductsAnswered | apps/mobile-consumer/src/buyer-browse-controller.ts:139-149 | when a page is shown and when the screen is unavailable |
| BuyerBrowse.BuyerBrowseController.SendCategories | apps/mobile-consumer/src/buyer-browse-controller.ts:89-95 | the first half of a category refresh |
| BuyerBrowse.BuyerBrowseController.SendProducts | apps/mobile-consumer/src/buyer-browse-controller.ts:127-138 | the first half of a product refresh: what is asked, and what is aborted |
| BuyerBrowse.BuyerBrowseController.OnCategories | apps/mobile-consumer/src/buyer-browse-controller.ts:95-125 | the second half, keeping the invariant |
| BuyerBrowse.BuyerBrowseController.OnProducts | apps/mobile-consumer/src/buyer-browse-controller.ts:139-149 | the second half, keeping the invariant |
| BuyerBrowse.BuyerBrowseController.Restore | apps/mobile-consumer/src/buyer-browse-controller.ts:156-173 | a link's location replaces the selection and the old page together |
| BuyerBrowse.BuyerBrowseController.Choose | apps/mobile-consumer/src/buyer-browse-controller.ts:175-186 | only listed categories can be chosen |
| BuyerBrowse.BuyerBrowseController.Search | apps/mobile-consumer/src/buyer-browse-controller.ts:188-199 | a valid search is trimmed and asked from page 1 |
| BuyerBrowse.BuyerBrowseController.PreviousPage | apps/mobile-consumer/src/buyer-browse-controller.ts:201-207 | steps back within the pages |
| BuyerBrowse.BuyerBrowseController.NextPage | apps/mobile-consumer/src/buyer-browse-controller.ts:209-217 | steps forward within the total and the page limit |
| Money.RoundsToNearest | packages/buyer-commerce/contracts.ts:7-7 | the modelled rounding gives a nearest double |
| Money.ReducedTracksExact | packages/buyer-commerce/contracts.ts:56-56 | the computed sum is exact below 2^53 and never returns below it |
| Money.QuoteTotalsAreExact | packages/buyer-commerce/contracts.ts:53-58 | a quote or comparison passes if and only if the exact integer sum is the total |
| Money.OrderTotalsAreExact | packages/buyer-commerce/contracts.ts:59-66 | an order passes if and only if lines and payments add up exactly |
| Money.QuoteLimits | packages/buyer-commerce/contracts.ts:53-58 | the same with every limit as a number: 1 to 100 lines, 1 to 999 pieces, prices and total below 2^53 |
| Money.OrderLimits | packages/buyer-commerce/contracts.ts:59-66 | the same for orders, whose payments are not negative and add up to the total |
| Money.SumsCanBeRounded | packages/buyer-commerce/contracts.ts:90-94 | computed sums are not exact in general |
| MapTiles.Tiles | packages/buyer-commerce/map-tiles.ts:84-119 | which inputs are refused, and the tiles row by row |
| MapTiles.ColumnIsResidue | packages/buyer-commerce/map-tiles.ts:107-107 | the column is the residue modulo 2^zoom despite the truncating remainder |
| MapTiles.KeyInjective | packages/buyer-commerce/map-tiles.ts:109-109 | printed keys determine the raw column and row |
| MapTiles.ExactCover | packages/buyer-commerce/map-tiles.ts:95-117 | every pixel on the map lies in exactly one tile, others in none, and keys are distinct |
| MapTiles.PaddedCover | packages/buyer-commerce/map-tiles.ts:95-117 | a pixel of an endless screen lies in some tile if and only if its column and row are touched by the viewport or at most the padding beyond and the row is on the map; the tile names its place and its column of the world |
| MapTiles.WrappedLongitude | packages/buyer-commerce/map-tiles.ts:28-29 | wrapping gives the longitude in [-180, 180) that differs by whole turns |
| Utf8.Utf8Size | apps/mobile-consumer/src/mobile-commerce.ts:6-6 | for every UTF-16 text, lone surrogates included, the counted size is the number of bytes sent |
| Utf8.ScalarsBack | apps/mobile-consumer/src/mobile-commerce.ts:26-26 | sending keeps the number of units and takes at most three bytes for each |
| Utf8.EncodedLength | apps/mobile-consumer/src/mobile-commerce.ts:26-26 | at most three bytes per UTF-16 unit, so a body of 8192 units is far below the transport's limit |
| Utf8.DecodeEncoded | apps/mobile-consumer/src/buyer-link.ts:62-72 | UTF-8 decodes what it encodes |
| Utf8.FormTextBack | apps/mobile-consumer/src/buyer-link.ts:20-31 | form encoding is undone by form parsing |
| DeepLink.FormatBuyerLink | apps/mobile-consumer/src/buyer-link.ts:59-74 | no link exactly for a detail route with an invalid identifier; otherwise the printed parameters |
| DeepLink.ParseBuyerLink | apps/mobile-consumer/src/buyer-link.ts:33-57 | the loop over the three keys refuses any repeated one |
| DeepLink.AuthorityForms | apps/mobile-consumer/src/buyer-link.ts:36-39 | an authority stands for its host if and only if user name, password and port are empty |
| DeepLink.QueryRoundTrip | apps/mobile-consumer/src/buyer-link.ts:62-72 | parsing a printed query gives the parameters back |
| DeepLink.BrowseBack | apps/mobile-consumer/src/buyer-link.ts:20-31 | the printed parameters read back as the location in normal form |
| DeepLink.LinkRoundTrip | apps/mobile-consumer/src/buyer-link.ts:33-74 | every printed link parses to its route in normal form and has at most 1600 units |
| LinkFacts.QueryPieces | apps/mobile-consumer/src/buyer-link.ts:46-50 | the parameters of any query are its pieces between ampersands, empty ones skipped |
| LinkFacts.PairMeans | apps/mobile-consumer/src/buyer-link.ts:46-50 | a piece is cut at its first equals sign |
| LinkFacts.LinkMeaning | apps/mobile-consumer/src/buyer-link.ts:33-57 | written in its parts, exactly which texts are routes, to which catalogue place or product they lead, and how the three parameters are read |
| LinkFacts.LinksAreWritten | apps/mobile-consumer/src/buyer-link.ts:33-57 | every text that is a route is written in those parts |
| LinkFacts.ParsedIsNormal | apps/mobile-consumer/src/buyer-link.ts:20-57 | every route read from any text is in normal form: small letters, trimmed search of at most 80 units, page 1 to 10000 |
| LinkFacts.PrintedAgain | apps/mobile-consumer/src/buyer-link.ts:33-74 | for every text that is a route, printing the route gives a link that leads to the same place |
| ImportFile.LoadAsync | apps/api/Hana.Api/ReviewedImportFile.cs:41-71 | terminates on a growing file, holds at most one byte over the limit, returns every byte or fails, and never reaches the check at line 50 |

## Left out

- HTTP, authentication, rate limits, gateway routes, screens, SQL text and entity tracking: only each handler's guard and effect are modelled.
- Transactions are atomic steps. A database error other than a violated unique index is not modelled, nor are races between the statements of the amendment save, which is not one transaction; a delayed insert there can leave an open amendment under review.
- The read endpoints other than access, status and the draft answer, and the field masks of the admin views.
- Digit normalisation, identity verification, enum and address parsing happen before a handler; their results are request parameters. SHA-256 of the submission key is the parameter `digest`.
- SellerPreflight.ReachableRowsLoad: identifiers, category and city names are lookups given to the model; that a row still exists in those tables is part of the stated condition. Coordinates are reals, so their stored precision is not modelled.
- The admin detail parser and the `activated` flag of a review replay are not modelled: both disagree with the rows the server can store.
- SellerReplay.ReuseIsRefused: submission keys are not covered, because a submission key is compared only with the key of the same application.
- Each call on the pending store takes effect at one point; the read and the write inside `save` and `advance` are not interleaved with another controller's. Startup photo cleanup runs while no controller is mounted. Keys and photo file names are fresh.
- The wallet, cart, checkout, orders and support controllers are one class, `SingleCommand`: what they share with the pending store. Their drafts, lists and messages are not modelled. Loaded lists, error texts and page numbers of the screens are left out, so the model allows more presses than the screens do; the automatic retry after an advance is the same step as a press.
- PendingTheorems.OneBodyPerKey: the condition is sufficient for a run and, by `CrossBreaks`, leads to a second body when the save posts and the photo can be read; a crossing save whose caller never heard of it, or whose photo is gone, need not break the promise.
- PendingBreaks.RespendBreaks: nothing is claimed when the photo file is gone and the saving controller has been left or has lost its order; then nobody may be able to continue that upload.
- PendingReports.ReportsSayWhatWasEntered: nothing is claimed for runs that are not disciplined; there a restore may replace order and form of a controller between a post and its answer.
- PendingLocks.OneUnderWay: not claimed for the cart, whose controller also unlocks before it reloads a changed cart.
- PendingKept.DisciplinedPhotos: one way; a failed move to the discard need not lose a photo, since the buyer may choose another.
- NativeIncidents.NativeIncidentsController.AfterLoad: the loaded lists and the error are left out.
- NativeIncidents.NativeIncidentsController.Report: the report window, item, quantity, picture and error checks are the parameter `fits`, and the model's runs do not restrict it.
- NativeIncidents.NativeIncidentsController.ConfirmReturn: the consent, incident and error checks are the parameter `consented`, and the model's runs do not restrict it.
- SingleCommand.SingleCommandController.AfterLoad: the loaded data and the error are left out.
- SingleCommand.SingleCommandController.Request: each screen's form and state checks are the parameter `fits`.
- A refused post settles its command, including 401 after an unknown outcome, as in the code; only a 401 on a discard does not. What the server does with a key is only that it issues one evidence per upload key.
- PendingCodec.StoredRoundTrip: number texts the client did not print itself (such as `1.0` for a version or a quantity) are refused by the model and accepted by ECMAScript; the printed form is the only one the client writes.
- Letter case outside ASCII in category identifiers, which are hexadecimal.
- Money: currency formatting and every other field check of the response parsers.
- MapTiles.Tiles: the centre's projection is an input, coordinates are reals rather than doubles, and non-finite sizes and fractional padding are not representable. The inverse projection is left out.
- DeepLink.ParseBuyerLink: links are split as `hana://host/path?query#fragment`; other URL syntax (percent-encoded or internationalised hosts, dot segments, surrounding blanks, tabs and newlines, text the URL parser would itself encode) is not modelled, and malformed UTF-8 gives one replacement character per byte.
- ImportFile.LoadAsync: argument checking and the strict UTF-8 decoding after the digest are left out; SHA-256 is a function parameter.
- Credit allocation, the learning services, one-time-password transitions, the EBM trainer and the CI scripts.
