# Gowtham Hospital booking app: a verified model

This project models the core of a small hospital-booking web application. Patients book
appointments with doctors. Doctors approve, decline and complete those appointments and edit
their own profile. An admin manages doctors and sees dashboard statistics.

The project models these parts:

- **The record store** (`MockDatabase.Store`): the browser-storage-backed mock that the pages use
  while `USE_BACKEND_API` is false. Its three tables start from the seed data (`SeedData`: 2
  patients, the admin and 25 doctors). It provides the twelve operations of the store interface.
- **The session** (`AuthContext`): `{user, isAuthenticated}` and the stored `session_user`, driven
  by login, register, logout and profile updates.
- **The pages' logic**:
  - the doctor portal (`DoctorAppointments`);
  - doctor management (`ManageDoctors`);
  - the profile page (`Profile`);
  - booking (`BookAppointment`);
  - the patient's history (`MyAppointments`);
  - the admin dashboard (`AdminDashboard`).
- **Navigation**: the route guard and route table (`Routing`) and the sidebar links (`Layout`).
- **The Express back end** (`Server`): the token gate and the route handlers, over an abstract
  collection store. Hashing, password comparison and token signing and verification are
  parameters.

Pure computations are functions with lemmas. The following are classes whose methods are
proved against those functions:

- the store;
- the session provider;
- each page's component state;
- the server's collections.

The weekday toggle that three pages share is specified once (`Weekdays.Toggled`). It is
implemented as a method that copies the days into an array and insertion-sorts it in place.

## Model

| member | source | states |
|---|---|---|
| Types.MakeUser | types.ts:3-11 | a user record carries the given id, name, email, password, role, phone and creation time, and no doctor-only field |
| Types.CountStatus | pages/admin/AdminDashboard.tsx:32 | the number of appointments with a status never exceeds the list length |
| Types.ReverseAt | pages/patient/MyAppointments.tsx:16 | `reverse` puts element `k` at position `len-1-k` |
| Types.ReverseMembership | pages/patient/MyAppointments.tsx:16 | reversing keeps exactly the same elements |
| Types.ReverseReverse | pages/doctor/DoctorAppointments.tsx:26 | reversing twice restores the list |
| Types.Lower | pages/admin/ManageDoctors.tsx:107-108 | lower-casing keeps the length and maps each character on its own |
| Weekdays.IndexIn | pages/doctor/DoctorAppointments.tsx:53 | `indexOf` is -1 exactly for an absent label, else the first position holding it |
| Weekdays.KeyInjective | pages/doctor/DoctorAppointments.tsx:15 | two weekday labels share a sort key exactly when they are the same label |
| Weekdays.SortPermutes | pages/doctor/DoctorAppointments.tsx:53 | the sort is a permutation of its input |
| Weekdays.SortSorted | pages/doctor/DoctorAppointments.tsx:53 | the sort orders days by their Mon..Sun index |
| Weekdays.SortOfSorted | pages/doctor/DoctorAppointments.tsx:53 | sorting an already ordered list changes nothing |
| Weekdays.Without | pages/doctor/DoctorAppointments.tsx:50 | the filter keeps exactly the other days |
| Weekdays.SortInPlace | pages/doctor/DoctorAppointments.tsx:53 | the in-place array sort leaves the sorted sequence in the array |
| Weekdays.InsertInPlace | pages/doctor/DoctorAppointments.tsx:53 | one in-place insertion step inserts the element into the sorted prefix |
| Weekdays.ToggleDay | pages/doctor/DoctorAppointments.tsx:47-55 | the array-based toggle returns the specified toggle of the days |
| Weekdays.ToggledMembership | pages/doctor/DoctorAppointments.tsx:48-51 | the toggled day's membership flips and every other day's is unchanged |
| Weekdays.WithoutDistinct | pages/doctor/DoctorAppointments.tsx:50 | removing a day from a duplicate-free list keeps it duplicate-free |
| Weekdays.DistinctPermutation | pages/doctor/DoctorAppointments.tsx:53 | a permutation of a duplicate-free list is duplicate-free |
| Weekdays.ToggledCanonical | pages/admin/ManageDoctors.tsx:64-73 | toggling a weekday in a strictly Mon..Sun ordered list gives a strictly ordered list |
| Weekdays.CanonicalUnique | pages/Profile.tsx:33 | two strictly ordered day lists with the same members are equal |
| Weekdays.ToggleTwice | pages/Profile.tsx:26-35 | toggling the same weekday twice restores a strictly ordered list |
| Weekdays.SortCanonicalizes | pages/doctor/DoctorAppointments.tsx:53 | sorting a duplicate-free list of weekdays gives a strictly ordered list |
| SeedData.DoctorAccount | services/mockDatabase.ts:22-373 | each seed doctor is a full doctor record with role doctor and its row's id, email, days and hours |
| SeedData.DoctorAccounts | services/mockDatabase.ts:22-373 | the seed doctors are the rows, in order, one record each |
| SeedData.DoctorRowsFacts | services/mockDatabase.ts:22-373 | the 25 doctor rows are pairwise apart in id and email, each has ordered days and an earlier start than end |
| SeedData.SeedShape | services/mockDatabase.ts:375-413 | `db_users` starts as two patients then the admin, and `db_doctors` as 25 doctor records |
| SeedData.SeedAccountsDistinct | services/mockDatabase.ts:12-394 | no two seed accounts across both tables share an id or an email |
| SeedData.SeedDoctorsWellFormed | services/mockDatabase.ts:22-373 | every seed doctor's days are strictly Mon..Sun ordered and its start time precedes its end time |
| MockDatabase.Db | services/mockDatabase.ts:488 | the exported store is the mock, since the backend switch is off |
| MockDatabase.ReplaceById | services/mockDatabase.ts:430-432 | same length; exactly the records with the new record's id are replaced |
| MockDatabase.RemoveById | services/mockDatabase.ts:453 | exactly the records with a different id survive |
| MockDatabase.SetStatusById | services/mockDatabase.ts:466-468 | only the status of matching appointments changes |
| MockDatabase.FindAccount | services/mockDatabase.ts:483-484 | null exactly when no record has both the email and the password; otherwise the first such record |
| MockDatabase.Store.constructor | services/mockDatabase.ts:397-408 | every key starts with nothing stored |
| MockDatabase.Store.LoadUsers | services/mockDatabase.ts:397-404 | a read of an empty key stores and returns the seed; otherwise it returns what is stored |
| MockDatabase.Store.LoadDoctors | services/mockDatabase.ts:397-404 | the doctor-table read, seeding on first use |
| MockDatabase.Store.LoadAppointments | services/mockDatabase.ts:397-404 | the appointment-table read, seeding the empty list on first use |
| MockDatabase.Store.GetUsers | services/mockDatabase.ts:412-414 | returns the user table, seeded if absent, and touches no other key |
| MockDatabase.Store.GetDoctors | services/mockDatabase.ts:415-417 | returns the doctor table, seeded if absent |
| MockDatabase.Store.GetAppointments | services/mockDatabase.ts:418-420 | returns the appointment table, seeded if absent |
| MockDatabase.Store.AddUser | services/mockDatabase.ts:422-427 | appends exactly one record at the end, with no duplicate check |
| MockDatabase.Store.UpdateUser | services/mockDatabase.ts:429-435 | the user table becomes its id-replacement by the record |
| MockDatabase.Store.AddDoctor | services/mockDatabase.ts:437-442 | appends exactly one doctor at the end |
| MockDatabase.Store.UpdateDoctor | services/mockDatabase.ts:444-450 | the doctor table becomes its id-replacement by the record |
| MockDatabase.Store.DeleteDoctor | services/mockDatabase.ts:452-456 | the doctor table loses exactly the records with that id |
| MockDatabase.Store.AddAppointment | services/mockDatabase.ts:458-463 | appends exactly one appointment at the end |
| MockDatabase.Store.UpdateAppointmentStatus | services/mockDatabase.ts:465-471 | sets the status of matching appointments, whatever their current status |
| MockDatabase.Store.DeleteUser | services/mockDatabase.ts:473-477 | the user table loses exactly the records with that id |
| MockDatabase.Store.Login | services/mockDatabase.ts:479-485 | the first credential match in users then doctors, with both tables seeded and nothing else written |
| MockDatabase.ReplaceUnknownId | services/mockDatabase.ts:430-432 | an update with an unknown id leaves the table unchanged |
| MockDatabase.ReplaceIdempotent | services/mockDatabase.ts:430-432 | repeating an update changes nothing more |
| MockDatabase.ReplaceMembership | services/mockDatabase.ts:430-432 | after an update, the table holds the records with other ids, plus the new record when its id occurred |
| MockDatabase.RemoveConcat | services/mockDatabase.ts:453 | deletion keeps the survivors in their original order |
| MockDatabase.RemoveUnknownId | services/mockDatabase.ts:453 | deleting an unknown id leaves the table unchanged |
| MockDatabase.RemoveIdempotent | services/mockDatabase.ts:452-456 | deleting twice is deleting once |
| MockDatabase.SetStatusUnknownId | services/mockDatabase.ts:466-468 | a status update for an unknown id leaves the table unchanged |
| MockDatabase.LoginUsersFirst | services/mockDatabase.ts:482-483 | a match in the user table wins over any doctor match |
| MockDatabase.LoginExactEmail | services/mockDatabase.ts:483 | a found account has exactly the given email and password |
| AuthContext.ErrorText | context/AuthContext.tsx:43 | a non-empty exception message is shown as is, otherwise the fallback |
| AuthContext.Restore | context/AuthContext.tsx:20-26 | a stored session user signs in; no stored user leaves the state |
| AuthContext.LoginStep | context/AuthContext.tsx:28-45 | success exactly when the lookup returns a user; it then sets the session; a null lookup or a throw changes nothing and reports the matching error |
| AuthContext.NewUser | context/AuthContext.tsx:50-55 | the registered record has id `user-` plus the stamp, role user, and the input's fields |
| AuthContext.RegisterStep | context/AuthContext.tsx:47-65 | a completed add signs in the new user and stores it; a throw changes nothing and reports the error |
| AuthContext.LogoutStep | context/AuthContext.tsx:67-70 | back to the initial state, with the stored session removed |
| AuthContext.UpdateProfileStep | context/AuthContext.tsx:72-75 | replaces the user, keeps `isAuthenticated`, stores the record |
| AuthContext.TransitionsKeepConsistent | context/AuthContext.tsx:15-70 | the initial state, restore, login, register and logout keep `isAuthenticated` iff a user is set |
| AuthContext.UpdateProfileConsistency | context/AuthContext.tsx:72-75 | a profile update keeps that invariant exactly when the state was authenticated |
| AuthContext.SessionMatchesUser | context/AuthContext.tsx:34-36 | after a successful login the stored session user is the state's user |
| AuthContext.AuthProvider.constructor | context/AuthContext.tsx:15-18 | starts signed out, with the given session storage |
| AuthContext.AuthProvider.RestoreSession | context/AuthContext.tsx:20-26 | the mount effect performs the restore step |
| AuthContext.AuthProvider.Login | context/AuthContext.tsx:28-45 | performs the login step on the store's credential lookup |
| AuthContext.AuthProvider.Register | context/AuthContext.tsx:47-65 | appends the new user to the store and performs the register step |
| AuthContext.AuthProvider.Logout | context/AuthContext.tsx:67-70 | signs out and clears the stored session |
| AuthContext.AuthProvider.UpdateProfile | context/AuthContext.tsx:72-75 | performs the profile-update step and stores the record |
| FieldEdits.TextEditSetsOnlyItsField | pages/Profile.tsx:22-24 | a text input sets exactly its own field and leaves all the others |
| FieldEdits.ExperienceEditSetsOnlyExperience | pages/doctor/DoctorAppointments.tsx:246 | the experience input sets only `experience` |
| FieldEdits.UneditedFieldsKept | pages/Profile.tsx:22-24 | any sequence of edits that never names a field leaves that field as it was |
| FieldEdits.EditsKeepEmail | pages/Profile.tsx:102-112 | no sequence of form edits changes the email, whose input is read-only |
| DoctorAppointments.ForDoctor | pages/doctor/DoctorAppointments.tsx:24 | keeps exactly the appointments of that doctor |
| DoctorAppointments.ForDoctorConcat | pages/doctor/DoctorAppointments.tsx:24 | the filter keeps the stored order |
| DoctorAppointments.DoctorViewMembership | pages/doctor/DoctorAppointments.tsx:18-28 | an admin sees every appointment, anyone else exactly those with their doctor id |
| DoctorAppointments.DoctorViewOrder | pages/doctor/DoctorAppointments.tsx:26 | the list is the selection in reverse stored order |
| DoctorAppointments.NewestFirst | pages/doctor/DoctorAppointments.tsx:18-28 | a newly stored visible appointment heads the list |
| DoctorAppointments.ReverseAppend | pages/doctor/DoctorAppointments.tsx:26 | the reverse of a list extended by one element starts with that element |
| DoctorAppointments.ReverseInPlace | pages/doctor/DoctorAppointments.tsx:26 | the in-place array reverse leaves the reversed sequence |
| DoctorAppointments.OfferedActions | pages/doctor/DoctorAppointments.tsx:148-182 | pending offers cancel and approve, approved offers complete, the rest nothing |
| DoctorAppointments.OfferedMovesForward | pages/doctor/DoctorAppointments.tsx:148-175 | every offered action moves an appointment to a later stage |
| DoctorAppointments.OfferedRunsAreShort | pages/doctor/DoctorAppointments.tsx:148-182 | a chain of offered actions visits at most three statuses |
| DoctorAppointments.StoreIgnoresOfferedActions | pages/doctor/DoctorAppointments.tsx:42-45 | in any table, every appointment with the id gets the new status even when no button offers that move, and nothing else of it changes |
| DoctorAppointments.StatusColor | pages/doctor/DoctorAppointments.tsx:67-74 | approved, cancelled and completed get their classes; every other value gets the yellow default |
| DoctorAppointments.StatusColorsDistinct | pages/doctor/DoctorAppointments.tsx:67-74 | the four statuses get four different classes, pending the yellow one |
| DoctorAppointments.SavedKeepsUneditedFields | pages/doctor/DoctorAppointments.tsx:57-65 | a saved profile keeps every field the doctor did not edit, and the session's id and role |
| DoctorAppointments.DoctorPortal.constructor | pages/doctor/DoctorAppointments.tsx:8-13 | an empty list, no profile copy, the modal closed |
| DoctorAppointments.DoctorPortal.FetchAppointments | pages/doctor/DoctorAppointments.tsx:18-28 | with a user, the list becomes the user's view of the stored appointments; without one nothing changes |
| DoctorAppointments.DoctorPortal.Mount | pages/doctor/DoctorAppointments.tsx:30-40 | fetches the list and, for a doctor, copies the session record with days defaulting to empty |
| DoctorAppointments.DoctorPortal.HandleStatusChange | pages/doctor/DoctorAppointments.tsx:42-45 | one status write, then the list is re-read |
| DoctorAppointments.DoctorPortal.ToggleDay | pages/doctor/DoctorAppointments.tsx:47-55 | the profile copy's days become the toggled days |
| DoctorAppointments.DoctorPortal.EditProfile | pages/doctor/DoctorAppointments.tsx:219-310 | one input edit of the modal is applied to the profile copy; the email and password stay, since the modal has no input for them |
| DoctorAppointments.DoctorPortal.SaveProfile | pages/doctor/DoctorAppointments.tsx:57-65 | a non-doctor writes nothing; a doctor's session record overlaid by the copy goes to the doctor table and the session |
| ManageDoctors.InitialFormDefaults | pages/admin/ManageDoctors.tsx:12-21 | password `password123`, Mon to Fri in order, hours 09:00 to 17:00 |
| ManageDoctors.FormFromDoctor | pages/admin/ManageDoctors.tsx:43-56 | the form copies the doctor, with `phone` defaulting to empty and `password` to `password123` |
| ManageDoctors.MergeForm | pages/admin/ManageDoctors.tsx:82-85 | the edit keeps id, role, experience and createdAt and takes every form field |
| ManageDoctors.NewDoctor | pages/admin/ManageDoctors.tsx:89-97 | a full doctor record with id `doc-` plus the stamp, role doctor, experience 5 |
| ManageDoctors.EditRoundTrip | pages/admin/ManageDoctors.tsx:43-85 | opening an edit and saving it unchanged gives back the doctor |
| ManageDoctors.FindById | pages/admin/ManageDoctors.tsx:80 | none exactly when no loaded doctor has the id; otherwise the first loaded doctor with it |
| ManageDoctors.Filtered | pages/admin/ManageDoctors.tsx:106-109 | keeps exactly the doctors whose lower-cased name or specialization contains the lower-cased query |
| ManageDoctors.FilteredConcat | pages/admin/ManageDoctors.tsx:106-109 | the search keeps the original order |
| ManageDoctors.ContainsEmpty | pages/admin/ManageDoctors.tsx:107 | every text contains the empty query |
| ManageDoctors.EmptyQueryKeepsAll | pages/admin/ManageDoctors.tsx:106-109 | an empty query keeps every doctor |
| ManageDoctors.QueryCaseIgnored | pages/admin/ManageDoctors.tsx:106-109 | queries that agree after lower-casing select the same doctors |
| ManageDoctors.EditOfUnknownIdWritesNothing | pages/admin/ManageDoctors.tsx:80-87 | an edit whose id matches no loaded doctor leaves the table as it was |
| ManageDoctors.EditChangesOnlyThatId | pages/admin/ManageDoctors.tsx:78-87 | an edit changes no record with another id |
| ManageDoctors.ManageDoctorsPage.constructor | pages/admin/ManageDoctors.tsx:7-23 | empty list and query, closed modal, no editing id, the initial form |
| ManageDoctors.ManageDoctorsPage.FetchDoctors | pages/admin/ManageDoctors.tsx:27-30 | the list becomes the doctor table |
| ManageDoctors.ManageDoctorsPage.HandleDelete | pages/admin/ManageDoctors.tsx:36-41 | a confirmed delete removes that id and re-reads; a declined one does nothing |
| ManageDoctors.ManageDoctorsPage.HandleEdit | pages/admin/ManageDoctors.tsx:43-56 | records the id, fills the form from the doctor, opens the modal |
| ManageDoctors.ManageDoctorsPage.HandleAddNew | pages/admin/ManageDoctors.tsx:58-62 | clears the id, resets the form, opens the modal |
| ManageDoctors.ManageDoctorsPage.ToggleDay | pages/admin/ManageDoctors.tsx:64-73 | the form's days become the toggled days |
| ManageDoctors.ManageDoctorsPage.HandleSubmit | pages/admin/ManageDoctors.tsx:75-104 | the table becomes the submit result, the list is re-read, the form and id reset and the modal closes |
| Profile.SubmitTarget | pages/Profile.tsx:42-46 | doctors save to the doctor table and every other role to the user table |
| Profile.SubmitMessage | pages/Profile.tsx:49-54 | success and its text exactly when the write did not throw |
| Profile.ToggleOnMissingDays | pages/Profile.tsx:26-35 | a record without days gets exactly the toggled day |
| Profile.UntouchedPasswordKept | pages/Profile.tsx:15-24 | the copy includes the current password, so a submit without a password edit keeps it |
| Profile.ClearedPasswordStored | pages/Profile.tsx:22-24 | clearing the password input stores an empty password |
| Profile.ProfilePage.constructor | pages/Profile.tsx:9-10 | an empty form and no message |
| Profile.ProfilePage.Mount | pages/Profile.tsx:15-20 | a signed-in user's record is copied into the form |
| Profile.ProfilePage.HandleChange | pages/Profile.tsx:22-24 | one input edit is applied to the form, and the email stays |
| Profile.ProfilePage.ToggleDay | pages/Profile.tsx:26-35 | the form's days become the toggled days, missing days counting as empty |
| Profile.ProfilePage.HandleSubmit | pages/Profile.tsx:37-56 | writes the form to the table its role selects, updates the session, shows success |
| BookAppointment.Booking | pages/patient/BookAppointment.tsx:31-42 | a pending booking with id `apt-` plus the stamp, patient fields from the user, doctor fields from the doctor, date, time and reason verbatim |
| BookAppointment.BookingIgnoresAvailability | pages/patient/BookAppointment.tsx:28-40 | the doctor's days and hours play no part in the booking |
| BookAppointment.BookingPage.constructor | pages/patient/BookAppointment.tsx:9-13 | an empty list and empty inputs |
| BookAppointment.BookingPage.Mount | pages/patient/BookAppointment.tsx:18-24 | the list becomes the doctor table |
| BookAppointment.BookingPage.HandleSubmit | pages/patient/BookAppointment.tsx:26-42 | without a matching loaded doctor or a user nothing is written; otherwise exactly the booking is appended |
| MyAppointments.ForPatient | pages/patient/MyAppointments.tsx:15 | keeps exactly the appointments of that patient |
| MyAppointments.PatientViewMembership | pages/patient/MyAppointments.tsx:11-20 | the list holds exactly the stored appointments of the signed-in user, and nothing without one |
| MyAppointments.PatientViewOrder | pages/patient/MyAppointments.tsx:16 | the list is the patient's appointments in reverse stored order |
| MyAppointments.NewBookingOnTop | pages/patient/MyAppointments.tsx:14-16 | a new booking of the user heads the list |
| MyAppointments.ForPatientAppend | pages/patient/MyAppointments.tsx:15 | a new booking of the patient is kept at the end of the filtered list |
| MyAppointments.BadgesAgree | pages/patient/MyAppointments.tsx:38-41 | the patient badge of each status is the doctor view's class |
| MyAppointments.PendingOnlyWaits | pages/patient/MyAppointments.tsx:58-60 | whenever the waiting note shows, the doctor portal offers an action on that status |
| AdminDashboard.ComputeStats | pages/admin/AdminDashboard.tsx:28-33 | the three counters are the table lengths and pending is the count of pending appointments |
| AdminDashboard.CountStatusAppend | pages/admin/AdminDashboard.tsx:36-39 | counting over a list extended by one counts that element once more |
| AdminDashboard.StatusCounts | pages/admin/AdminDashboard.tsx:36-39 | the reduce's dictionary holds, for each status that occurs, its number of appointments |
| AdminDashboard.ChartData | pages/admin/AdminDashboard.tsx:41-46 | four buckets named Pending, Approved, Completed, Cancelled in that order |
| AdminDashboard.StatusesPartition | types.ts:30 | the four status counts add up to the number of appointments |
| AdminDashboard.ChartAddsUp | pages/admin/AdminDashboard.tsx:32-46 | the bars sum to the appointment total and the Pending bar equals the pending counter |
| AdminDashboard.TotalPatientsIncludesAdmin | pages/admin/AdminDashboard.tsx:29 | on the seed the patient counter is 3, one of them the admin |
| AdminDashboard.ReportRows | pages/admin/AdminDashboard.tsx:70-77 | one row per appointment, in stored order |
| AdminDashboard.ReportRowShape | pages/admin/AdminDashboard.tsx:69-77 | each row has a cell per column, with the patient, doctor and status cells in their columns |
| AdminDashboard.DashboardPage.constructor | pages/admin/AdminDashboard.tsx:11-17 | zero counters and an empty chart |
| AdminDashboard.DashboardPage.FetchData | pages/admin/AdminDashboard.tsx:19-50 | the counters and the chart are those of the three tables |
| AdminDashboard.DashboardPage.ReportTable | pages/admin/AdminDashboard.tsx:52-77 | the report rows of the appointment table |
| Routing.Protect | App.tsx:27-37 | signed out goes to `/`; a signed-in role outside the list goes to `/dashboard`; otherwise the page renders in the layout |
| Routing.PatientRoutes | App.tsx:59-64 | booking admits exactly patients, the history exactly patients and doctors |
| Routing.AdminRoutes | App.tsx:70-78 | doctor management, user management and all appointments admit exactly admins |
| Routing.SharedRoutes | App.tsx:80-88 | the profile and the dashboard home admit every signed-in account |
| Routing.SignedOutGoesHome | App.tsx:30 | every guarded path sends a signed-out visitor to `/` |
| Routing.RedirectTargetsAdmit | App.tsx:30-34 | a redirect goes to `/` or `/dashboard`, and following it never redirects again |
| Routing.UnmatchedGoesHome | App.tsx:91 | an unmatched path redirects to `/` |
| Routing.TrimTrailing | App.tsx:52-91 | a location's trailing slashes are dropped before matching, and nothing else of it |
| Routing.TrailingSlashIgnored | App.tsx:52-91 | a location with a trailing slash renders what it renders without one |
| Routing.CaseIgnored | App.tsx:52-91 | a location renders what its lower-cased form renders, since route matching ignores case |
| Routing.DashboardHome | App.tsx:39-44 | admin gets the dashboard, doctor the portal, anyone else the welcome view |
| Layout.Links | components/Layout.tsx:103-136 | the admin, doctor and patient link lists |
| Layout.OneActiveLink | components/Layout.tsx:85 | at most one sidebar link is active for any path |
| Layout.AdminAndPatientLinksAdmitted | components/Layout.tsx:104-135 | every admin and patient link leads to a page that admits them |
| Layout.DoctorAppointmentsLinkRedirects | components/Layout.tsx:116-126 | the doctor's appointments link is admin-only and redirects to `/dashboard`; the doctor's other links are admitted |
| Server.HideAll | server/server.js:231 | one password-free view per document, in order |
| Server.FirstOccurrence | server/server.js:107 | where the first occurrence of the pattern starts, with no occurrence before it, or the length when there is none |
| Server.StripFirst | server/server.js:107 | a header without the pattern is unchanged; otherwise the first occurrence is cut out and the text around it kept |
| Server.StripBearer | server/server.js:107 | `Bearer <token>` yields the token |
| Server.Authenticate | server/server.js:106-117 | no token or an empty one is 401, a failing token 400, and otherwise the decoded claims pass |
| Server.MissingTokenRejected | server/server.js:107-108 | a missing header or the bare prefix is 401 |
| Server.AdmissionIgnoresRole | server/server.js:110-113 | any verifying token passes, whatever role it carries |
| Server.FirstEmail | server/server.js:125 | the first document with the email, or none |
| Server.FirstId | server/server.js:212 | the position of the first document, user or appointment, with the id, or the length when none has it |
| Server.DoctorDocs | server/server.js:175 | exactly the documents with role doctor |
| Server.InsertKeepsUnique | server/server.js:28-31 | a save that passes the checks keeps ids and emails unique |
| Server.InsertAptKeepsUnique | server/server.js:45 | a saved appointment keeps appointment ids unique |
| Server.ReplaceKeepsUnique | server/server.js:212 | an update that clashes with no other document keeps ids and emails unique |
| Server.SetStatusKeepsUnique | server/server.js:287 | a status change keeps appointment ids unique |
| Server.RegisteredUser | server/server.js:128-132 | the body's role, defaulting to user, and the hash of the body's password |
| Server.CreatedDoctor | server/server.js:188-192 | role forced to doctor and the hash of the given password, or of `password` when it is missing or empty |
| Server.RegisterTakesBodyRole | server/server.js:128-188 | register keeps the body's role while doctor creation overrides it |
| Server.PreparePatch | server/server.js:203-210 | a non-empty password is replaced by its hash and any other is dropped; nothing else changes |
| Server.PasswordRule | server/server.js:201-212 | an update with no or an empty password keeps the stored hash, otherwise it stores the new hash |
| Server.EmptyPatchChangesNothing | server/server.js:212 | an update with no fields leaves the document as it was |
| Server.NewApt | server/server.js:276 | status defaults to pending, and the body's ids are kept |
| Server.WithStatus | server/server.js:287 | only the status changes; a body without a status leaves it, with the update's undefined key dropped |
| Server.DeleteById | server/server.js:221 | the first document with the id goes if there is one, otherwise nothing |
| Server.DeleteRemovesId | server/server.js:221 | with unique ids, no remaining document has the id and uniqueness holds |
| Server.DeleteIdempotent | server/server.js:219-226 | a second delete of the same id changes nothing |
| Server.LoginReply | server/server.js:150-169 | the same 400 `Invalid credentials` for an unknown email and a wrong password; a known email without a password is a server error; otherwise a token over id and role with a 1-day expiry and the password-free user |
| Server.RegisterThenLogin | server/server.js:122-165 | an account just saved by register logs in with its password when the hash checks |
| Server.Database.SaveUser | server/server.js:134 | a new user is stored exactly when it passes the checks and the indexes |
| Server.Database.UpdateUser | server/server.js:212 | updates the first document with the id unless the result clashes with another document |
| Server.Database.DeleteUser | server/server.js:221 | removes the first document with the id |
| Server.Database.SaveApt | server/server.js:277 | a new appointment is stored exactly when its status and id pass |
| Server.Database.UpdateStatus | server/server.js:287 | sets the status of the first appointment with the id, without any validator |
| Server.Register | server/server.js:122-148 | a taken email is 400 `User already exists`; a missing password or a failed save is a server error; otherwise the user is stored and a token and the password-free user returned |
| Server.Login | server/server.js:150-170 | the login reply over the stored users, with nothing written |
| Server.GetDoctors | server/server.js:173-180 | the password-free doctor documents, with no token needed |
| Server.CreateDoctor | server/server.js:182-199 | behind the gate: a taken email is 400; otherwise the created doctor is stored and returned |
| Server.UpdateAccount | server/server.js:201-253 | behind the gate: the first document with the id is updated under the password rule, or null is sent |
| Server.DeleteAccount | server/server.js:219-262 | behind the gate: success whether or not the id exists |
| Server.GetUsers | server/server.js:229-236 | behind the gate: every account, without passwords |
| Server.GetAppointments | server/server.js:265-272 | behind the gate: every appointment |
| Server.CreateAppointment | server/server.js:274-282 | behind the gate: the new appointment is stored if it passes, with no check of doctor, patient or slot |
| Server.PatchStatus | server/server.js:284-292 | behind the gate: the requested status is set whatever the current one, or null is sent |
| Server.StatusSetUnchecked | server/server.js:284-291 | the patch sets exactly the requested status and keeps the id |

## Left out

- Browser storage and JSON serialisation: each storage key is one optional field of
  `MockDatabase.Store`, where an absent value is an empty key. The deep copy made by
  `JSON.parse(JSON.stringify(user))` is a plain value copy.
- `Date.now()`, `new Date().toISOString()` and `toLocaleString()`: ids and timestamps are method
  parameters. The seed's creation time is the store's `loadTime`.
- `setTimeout` delays, `async` and `Promise.all`: every operation runs to completion in sequence.
- The mock store never throws. So the thrown-error branches of login, register and the profile
  submit exist only in the pure steps (`AuthContext.LoginStep`, `AuthContext.RegisterStep`,
  `Profile.SubmitMessage`), not in the methods that call the mock.
- `AuthContext.ErrorText`: an exception without a message is modelled as one with an empty
  message.
- The HTTP client in `services/api.ts` is not part of this model. Neither are `ManageUsers`,
  `Home`, `Login` and `Register`: those pages only submit forms and show errors.
- JSX, class strings other than the status badges, icons, chart rendering and the PDF output of
  the report. Only the report's row mapping is modelled.
- `FieldEdits`: the Profile page's `handleChange` stores the text of the experience input. The
  doctor modal applies `parseInt(...) || 0` first. The model stores an integer in both cases and
  does not model `parseInt`.
- `Types.Lower`: `toLowerCase` is modelled for ASCII letters only.
- `MockDatabase.Store` does not hold `loadTime` as mutable state. The seed content of each table
  is a function of that time.
- `Profile.ProfilePage.HandleChange`, `Profile.ProfilePage.ToggleDay` and
  `Profile.ProfilePage.HandleSubmit` require the form copy to exist. The form is rendered only
  once a user is loaded, and the state's initial `{}` is not modelled as an account.
- `DoctorAppointments.DoctorPortal.ToggleDay` and `DoctorAppointments.DoctorPortal.EditProfile`
  require the profile copy. The modal that calls them is offered only to doctors, whose copy the
  mount effect made. `EditProfile` also takes only the edits the modal's inputs make, which never
  write the password.
- `ManageDoctors.ManageDoctorsPage.HandleEdit` and `ManageDoctors.Filtered` require full doctor
  records, as the page's `Doctor` type does. A table record without a specialization, which
  would throw in the search, is not modelled.
- Server: bcrypt's salt generation is part of the `hash` parameter. Token expiry and the clock
  are part of the `verify` parameter. The JWT secret is not modelled.
- Server: the Mongo connection, the seeding at start-up (`server/server.js:18-103`) and the
  listener are not modelled.
- Server: Mongo's `_id` field and mongoose's type casts are not modelled. `POST /api/doctors`
  and `POST /api/appointments` send the saved document as stored, which includes `_id`.
- Server: request bodies for register and doctor creation always carry an email. A body without
  one would make `findOne` match an arbitrary document.
- Server: update bodies carry the schema's user fields only. A body that sets `createdAt` or
  fields outside the schema is not modelled.
- `Server.WithStatus`: a PATCH body without `status` sends the update `{ status: undefined }`.
  The model assumes that mongoose drops the undefined key, as mongoose 6 and later do, so the
  stored status stays. Under mongoose 5 the key would be written as null instead. The
  package manifest that fixes the mongoose version is not part of this model.
- `Routing.RouteOf`: route matching is modelled as ignoring case (for ASCII letters) and
  trailing slashes. Percent-decoding, repeated inner slashes and a router `basename` are not
  modelled.
- Server: the unique indexes are modelled as save and update failures, which reach the catch
  block as a server error. Index creation, sparse-index behaviour and races between requests
  are not modelled.
