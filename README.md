# College attendance app: screen logic in Dafny

This project models the decision logic of the React Native college
attendance app (Sakthi-Venkat/ad-app). The app has screens for students,
staff and heads of department (HOD). They cover the navigation menu, leave
and OD requests and their approval, announcements, internal-mark upload,
exam hall allocation, class attendance, attendance reports, the profile,
password recovery, registration and the loading screen. It also models the
`splitStyles` helper.

Each screen becomes one module. A screen's state hooks become the fields of
a `class`, and its handlers become methods that reassign those fields. The
guards, table lookups, filters and renderers become functions with named
results. Every network call is a parameter `Outcome<T>`: the response said
`success` (with its payload), the response did not, or the call threw. A
stored token that was read and decoded is a parameter `TokenRead`. A
JavaScript value that may be `null`, `undefined` or `""` is a string whose
falsy case is `""`, unless the difference shows in the output (the profile
screen's `String(rollNo)` is one such place).

`common.dfy` holds the shared values and the JavaScript built-ins the screens
rely on:
- `Array.prototype.filter`, proved to keep exactly the passing elements, in
  order and with their multiplicities;
- `join`;
- ASCII `toLowerCase`.

## Model

| member | source | states |
|---|---|---|
| `Navbar.RenderLinks` | src/Screen/Navbar.js:37-71 | every role's menu has two to six entries, the second is Profile, the first is captioned Dashboard; a role other than student, staff or hod (including none) gets exactly Dashboard and Profile |
| `Navbar.Screens` | src/Screen/Navbar.js:40-71 | the menu's target screens, in order, always include "Profile" |
| `Navbar.StudentMenu` | src/Screen/Navbar.js:40-48 | a student's menu is exactly the six (label, screen) pairs Dashboard, Profile, Announcements→FetchAnnouncements, Internal Marks→MarksView, Leave/OD Request→LeaveRequest, My Reports→StudentReports, in that order |
| `Navbar.StaffMenu` | src/Screen/Navbar.js:49-57 | staff get six entries, the last three being Upload Marks, Leave/OD Approvals and Class Report with their screens |
| `Navbar.HodMenu` | src/Screen/Navbar.js:58-65 | an HOD gets five entries; Dashboard leads to CumulativeReport and Announcements to HodAnnouncements |
| `Navbar.NavbarState.constructor` | src/Screen/Navbar.js:9-10 | the role starts unknown and the menu closed |
| `Navbar.NavbarState.Links` | src/Screen/Navbar.js:73-84 | the menu on offer always has at least two entries, one of them Profile |
| `Navbar.NavbarState.FetchRole` | src/Screen/Navbar.js:13-26 | a decoded token sets the role to its roles claim; no token or a failed decode leaves the role unchanged |
| `Navbar.NavbarState.ToggleMenu` | src/Screen/Navbar.js:33-35 | the menu's open flag is negated; nothing else changes |
| `Navbar.NavbarState.PressLink` | src/Screen/Navbar.js:76-79 | pressing an entry closes the menu and navigates to exactly that entry's screen |
| `Navbar.NavbarState.HandleLogout` | src/Screen/Navbar.js:28-31 | logging out navigates to Login |
| `Navbar.ToggleTwice` | src/Screen/Navbar.js:33-35 | toggling twice restores the open flag |
| `Navbar.InitialMenu` | src/Screen/Navbar.js:13-26 | without a decodable token the menu is the Dashboard/Profile fallback |
| `LeaveApproval.StatusStyle` | src/Screen/LeaveApproval.js:105-110 | a badge style exists exactly for Approved, Rejected, pendingHod and Pending |
| `LeaveApproval.StatusStyleInjective` | src/Screen/LeaveApproval.js:105-110 | the four badges are distinct, so a badge identifies its status |
| `LeaveApproval.ActionsOnlyForStaffOnPending` | src/Screen/LeaveApproval.js:138 | Approve/Reject/Forward are offered iff the status is exactly "Pending", the request is not forwarded and the viewer is staff; never to an HOD or a student |
| `LeaveApproval.DecisionStatus` | src/Screen/LeaveApproval.js:141-147 | Approve sends "Approved" and Reject "Rejected", both statuses with a badge |
| `LeaveApproval.DecisionStatusInjective` | src/Screen/LeaveApproval.js:141-147 | the two buttons send different statuses |
| `LeaveApproval.StatusUpdateCall` | src/Screen/LeaveApproval.js:67-74 | the status update is a PATCH to /api/leaverequest/<id> whose body holds only the chosen status |
| `LeaveApproval.ForwardCall` | src/Screen/LeaveApproval.js:86-93 | forwarding is a PATCH to /api/leaverequest/foward/<id> (spelled so) with an empty body |
| `LeaveApproval.RenderCard` | src/Screen/LeaveApproval.js:112-161 | a card renders only for a status with a badge; it shows the document button iff there is a file path and the action buttons iff the action guard holds |
| `LeaveApproval.Render` | src/Screen/LeaveApproval.js:170-179 | spinner iff loading, the empty state iff not loading and no requests, otherwise one card per request in order |
| `LeaveApproval.FetchedRequests` | src/Screen/LeaveApproval.js:52-53 | the list after a fetch: the returned list on success (empty when the body has none); any other outcome keeps the current list |
| `LeaveApproval.LeaveApprovalScreen.constructor` | src/Screen/LeaveApproval.js:26-28 | no requests, not loading, no role |
| `LeaveApproval.LeaveApprovalScreen.FetchUserRole` | src/Screen/LeaveApproval.js:30-43 | a decoded token sets the viewer's role; otherwise it stays |
| `LeaveApproval.LeaveApprovalScreen.FetchRequests` | src/Screen/LeaveApproval.js:45-61 | a success replaces the list (empty when absent); a refusal alerts its message and an exception a fixed error, both keeping the list; loading ends |
| `LeaveApproval.LeaveApprovalScreen.HandleStatusUpdate` | src/Screen/LeaveApproval.js:67-84 | records the PATCH; only a success alerts success and re-fetches; otherwise the list is kept and the error alerted |
| `LeaveApproval.LeaveApprovalScreen.HandleSendToHod` | src/Screen/LeaveApproval.js:86-103 | records the forward PATCH; only a success re-fetches; a refusal and an exception give the same error |
| `StudentLeaveStatus.FilteredRequests` | src/Screen/StudentLeaveStatus.js:69-71 | "all" keeps the list; another filter keeps exactly the requests whose lower-cased status equals it, with their multiplicities, in order |
| `StudentLeaveStatus.PendingHodOnlyUnderAll` | src/Screen/StudentLeaveStatus.js:69-71 | among the offered filters, a "pendingHod" request shows only under "all" |
| `StudentLeaveStatus.GetStatusStyle` | src/Screen/StudentLeaveStatus.js:48-59 | the icon and colour for approved, pending and rejected (any case), and grey info for anything else |
| `StudentLeaveStatus.GetStatusStyleCaseInsensitive` | src/Screen/StudentLeaveStatus.js:49 | the icon does not depend on the status's letter case |
| `StudentLeaveStatus.PendingHodIsInfo` | src/Screen/StudentLeaveStatus.js:56-57 | a forwarded request's "pendingHod" status gets the grey info icon |
| `StudentLeaveStatus.ToggleReason` | src/Screen/StudentLeaveStatus.js:62-67 | the tapped id's expanded flag flips (a missing entry counts as collapsed); every other entry is unchanged |
| `StudentLeaveStatus.ToggleReasonTwice` | src/Screen/StudentLeaveStatus.js:62-67 | toggling an id twice restores every entry's flag |
| `StudentLeaveStatus.NumberOfLines` | src/Screen/StudentLeaveStatus.js:125 | the reason shows unlimited lines (0) iff expanded, otherwise three |
| `StudentLeaveStatus.Capitalize` | src/Screen/StudentLeaveStatus.js:98 | only the first character is upper-cased and the length is kept |
| `StudentLeaveStatus.FilterCaptions` | src/Screen/StudentLeaveStatus.js:88-98 | the buttons read All, Pending, Approved, Rejected |
| `StudentLeaveStatus.RenderCard` | src/Screen/StudentLeaveStatus.js:108-134 | the Read More / Show Less toggle appears iff the reason exceeds 100 characters, and its caption follows the expanded flag |
| `StudentLeaveStatus.Render` | src/Screen/StudentLeaveStatus.js:105-139 | spinner iff loading; the notice iff nothing passes the filter; otherwise one card per visible request in order |
| `StudentLeaveStatus.StudentLeaveStatusScreen.constructor` | src/Screen/StudentLeaveStatus.js:16-19 | loading, filter "all", no requests, nothing expanded |
| `StudentLeaveStatus.StudentLeaveStatusScreen.Visible` | src/Screen/StudentLeaveStatus.js:69-71 | the visible list is an ordered subsequence of the fetched one |
| `StudentLeaveStatus.StudentLeaveStatusScreen.FetchRequests` | src/Screen/StudentLeaveStatus.js:21-41 | only a success with a non-empty token replaces the list; a missing or empty token or an exception alerts a fixed error, a refusal its message; loading ends |
| `StudentLeaveStatus.StudentLeaveStatusScreen.SetFilter` | src/Screen/StudentLeaveStatus.js:88-91 | the filter becomes the pressed button's value, always one of the four offered |
| `StudentLeaveStatus.StudentLeaveStatusScreen.ToggleReasonOf` | src/Screen/StudentLeaveStatus.js:129 | the expanded map is toggled at that id only |
| `FetchAnnouncements.ToggleAnnouncement` | src/Screen/FetchAnnouncements.js:53-55 | exactly the tapped id's membership flips; a removal keeps the others in order, an addition appends at the end; every other id keeps its number of occurrences; a duplicate-free list stays duplicate-free |
| `FetchAnnouncements.ToggleAbsentTwice` | src/Screen/FetchAnnouncements.js:53-55 | expanding then collapsing an announcement restores the list exactly |
| `FetchAnnouncements.ToggleTwiceMembership` | src/Screen/FetchAnnouncements.js:53-55 | toggling twice restores every id's membership |
| `FetchAnnouncements.RenderRow` | src/Screen/FetchAnnouncements.js:110-130 | a row shows its content iff its id is expanded |
| `FetchAnnouncements.Render` | src/Screen/FetchAnnouncements.js:62-109 | spinner iff loading and not refreshing, then the error view, then "No new messages" for an empty list, else one row per announcement |
| `FetchAnnouncements.AnnouncementsScreen.constructor` | src/Screen/FetchAnnouncements.js:10-14 | loading, no error, nothing expanded, not refreshing |
| `FetchAnnouncements.FetchToast` | src/Screen/FetchAnnouncements.js:25-37 | a fetch is silent exactly when it succeeds with `refreshing` captured as true; otherwise the success toast, the server's message, or the fixed exception text |
| `FetchAnnouncements.StaleClosureToasts` | src/Screen/FetchAnnouncements.js:27 | a successful fetch toasts when its closure captured an idle screen and is silent when it captured a refresh |
| `FetchAnnouncements.AnnouncementsScreen.FetchAnnouncements` | src/Screen/FetchAnnouncements.js:16-42 | the error is cleared; a success stores the list (empty when absent); a refusal or exception sets the error and keeps the list; the toast follows the captured `refreshing`; loading and refreshing end |
| `FetchAnnouncements.AnnouncementsScreen.HandleRefresh` | src/Screen/FetchAnnouncements.js:48-51 | as written the fetch runs with the `refreshing` of the previous render, so a refresh from an idle screen toasts its success; refreshing ends |
| `FetchAnnouncements.AnnouncementsScreen.HandleRefreshIntended` | src/Screen/FetchAnnouncements.js:27-29 | the intended refresh: silent on success, toasting only failures; refreshing ends |
| `FetchAnnouncements.AnnouncementsScreen.Toggle` | src/Screen/FetchAnnouncements.js:124 | a tap applies the toggle to the expanded ids and changes nothing else |
| `AnnouncementSingleView.ShownText` | src/Screen/AnnouncementSingleView.js:15-19 | expanded shows all the content; collapsed shows at most 103 characters: the first 100 followed by "...", or the whole content when it is 100 characters or fewer |
| `AnnouncementSingleView.CollapsedIsPrefixPlusEllipsis` | src/Screen/AnnouncementSingleView.js:17-19 | the collapsed text is the content itself or its first 100 characters plus "..." |
| `AnnouncementSingleView.AnnouncementCard.constructor` | src/Screen/AnnouncementSingleView.js:4-5 | a card starts collapsed |
| `AnnouncementSingleView.AnnouncementCard.ToggleContent` | src/Screen/AnnouncementSingleView.js:7-9 | a tap negates the expanded flag |
| `AnnouncementSingleView.AnnouncementCard.Text` | src/Screen/AnnouncementSingleView.js:14-20 | the card's text is the full content when expanded, otherwise at most 103 characters |
| `AnnouncementSingleView.TapTwice` | src/Screen/AnnouncementSingleView.js:7-9 | two taps restore the flag and the text shown |
| `InternalMarkUpload.MarkFor` | src/Screen/InternalMarkUpload.js:67 | the typed text when non-empty, else the number 0 |
| `InternalMarkUpload.Payload` | src/Screen/InternalMarkUpload.js:64-69 | one entry per student in roster order, with that student's roll number and mark, and the same exam type and subject throughout |
| `InternalMarkUpload.PayloadAfterMarkChange` | src/Screen/InternalMarkUpload.js:54-56 | entering a mark changes only the payload entries of that roll number |
| `InternalMarkUpload.MarkUploadScreen.constructor` | src/Screen/InternalMarkUpload.js:19-26 | empty selections, roster and marks; not loading |
| `InternalMarkUpload.MarkUploadScreen.Select` | src/Screen/InternalMarkUpload.js:100-147 | the five pickers set their selections and nothing else |
| `InternalMarkUpload.MarkUploadScreen.FetchStudents` | src/Screen/InternalMarkUpload.js:28-52 | no request unless department, class and year are chosen; a success replaces the roster, others keep it; each case toasts its own message; loading ends |
| `InternalMarkUpload.MarkUploadScreen.HandleMarksChange` | src/Screen/InternalMarkUpload.js:54-56 | only that roll number's mark changes |
| `InternalMarkUpload.MarkUploadScreen.HandleSubmit` | src/Screen/InternalMarkUpload.js:58-92 | nothing is sent without an exam type or students; otherwise the payload is sent; a success clears roster and marks, others keep them; loading ends |
| `InternalMarkUpload.CanFetch` | src/Screen/InternalMarkUpload.js:29 | the fetch needs none of department, class and year to be empty |
| `InternalMarkUpload.UploadAfterThrownFetch` | src/Screen/InternalMarkUpload.js:33-48 | as written, a fetch that throws leaves the roster empty, so Upload stops at "Please complete all selections" and nothing is sent |
| `InternalMarkUpload.UploadAfterFetch` | src/Screen/InternalMarkUpload.js:28-92 | once the fetch succeeds with a non-empty roster and an exam type is chosen, Upload sends one entry per fetched student |
| `ExamHallPost.MissingFields` | src/Screen/ExamHallPost.js:32-33 | a field is listed iff it is required and falsy in the form |
| `ExamHallPost.MissingFieldsInOrder` | src/Screen/ExamHallPost.js:32-33 | the missing fields come in the required-field order |
| `ExamHallPost.MissingMessage` | src/Screen/ExamHallPost.js:36 | the toast is "Missing fields: " followed by the missing names joined with ", " (for one field, just its name) |
| `ExamHallPost.InitialFormShape` | src/Screen/ExamHallPost.js:9-17 | the fresh form holds exactly the seven required keys, all empty except the date |
| `ExamHallPost.InitialForm` | src/Screen/ExamHallPost.js:9-17 | the fresh form is the intended seven-field form with every text field empty and the date now |
| `ExamHallPost.IntendedForm` | src/Screen/ExamHallPost.js:9-17 | a form with the seven required keys exactly, each holding its own input |
| `ExamHallPost.ScreenAlwaysMissesThree` | src/Screen/ExamHallPost.js:66-113 | on any form the screen can reach, class, hall and department are always missing and the date never is |
| `ExamHallPost.ReachableFormIncomplete` | src/Screen/ExamHallPost.js:32-39 | so validation always fails on this screen |
| `ExamHallPost.CompleteFormHasNoMissing` | src/Screen/ExamHallPost.js:33-35 | a form with all seven fields truthy passes validation |
| `ExamHallPost.FilledFormPasses` | src/Screen/ExamHallPost.js:32-35 | on a form with an input for every field, filling all six text fields makes validation pass |
| `ExamHallPost.InitialFormReachable` | src/Screen/ExamHallPost.js:51 | the reset form is one the screen can reach |
| `ExamHallPost.ExamHallPostScreen.constructor` | src/Screen/ExamHallPost.js:9-18 | the initial form, not loading |
| `ExamHallPost.ExamHallPostScreen.HandleChange` | src/Screen/ExamHallPost.js:22-27 | only the named key changes |
| `ExamHallPost.ExamHallPostScreen.EnterText` | src/Screen/ExamHallPost.js:68-113 | the roll number, year and exam type inputs keep the form reachable |
| `ExamHallPost.ExamHallPostScreen.PickDate` | src/Screen/ExamHallPost.js:97-100 | a picked date replaces the exam date; a dismissed picker changes nothing |
| `ExamHallPost.ExamHallPostScreen.Submit` | src/Screen/ExamHallPost.js:41-59 | the form is posted; a success resets it; a refusal toasts the message or "Failed to Allocate Exam Hall"; an exception "Error Allocating Exam Hall" |
| `ExamHallPost.ExamHallPostScreen.PostHalls` | src/Screen/ExamHallPost.js:29-60 | posts iff nothing is missing, else toasts the missing list and changes nothing; from any reachable form it never posts |
| `CCAttendance.NamesLine` | src/Screen/CCAttendance.js:105-108 | the joined names, or "None" when the join is empty; never empty |
| `CCAttendance.NamesLineNone` | src/Screen/CCAttendance.js:105 | the line reads "None" exactly for no names, one empty name, or the single name "None" |
| `CCAttendance.RenderPeriod` | src/Screen/CCAttendance.js:98-110 | a period card shows the record's own length field and the present and absent lines |
| `CCAttendance.RenderResults` | src/Screen/CCAttendance.js:95-113 | the results section appears iff there is a period, with one card per period in order |
| `CCAttendance.TotalIgnoresLists` | src/Screen/CCAttendance.js:102 | the total shown depends on the length field only, not on the lists |
| `CCAttendance.CCAttendanceScreen.constructor` | src/Screen/CCAttendance.js:13-17 | empty inputs and records; not loading |
| `CCAttendance.CCAttendanceScreen.HandleInput` | src/Screen/CCAttendance.js:59-84 | each input replaces its own field only |
| `CCAttendance.CCAttendanceScreen.FetchAttendance` | src/Screen/CCAttendance.js:19-47 | no request unless department, class and date are filled; a success replaces the records wholesale, other outcomes keep them; the alerts per case; loading ends |
| `CCAttendance.CCAttendanceScreen.Results` | src/Screen/CCAttendance.js:95 | the results show iff the records have a period |
| `CCAttendance.CanFetch` | src/Screen/CCAttendance.js:20 | the fetch needs none of department, class and date to be empty |
| `StudentReports.ReportUrl` | src/Screen/StudentReports.js:36-42 | a student's myReports URL, the staff/HOD bulk URL, and "" for any other role |
| `StudentReports.ReportUrlOnlyForKnownRoles` | src/Screen/StudentReports.js:37-42 | a URL is built exactly for student, staff and hod, and it always names the server |
| `StudentReports.ReportUrlIgnoresOtherInputs` | src/Screen/StudentReports.js:38-41 | a student's URL ignores class and department; a staff/HOD URL ignores the roll number |
| `StudentReports.FilterValue` | src/Screen/StudentReports.js:83-86 | the picker yields only "month" or "week" |
| `StudentReports.StudentReportsScreen.constructor` | src/Screen/StudentReports.js:9-16 | filter "week", empty lists, roll number 0 |
| `StudentReports.StudentReportsScreen.LoadToken` | src/Screen/StudentReports.js:20-34 | a decoded token sets role and roll number; otherwise nothing changes |
| `StudentReports.StudentReportsScreen.EnterClass` | src/Screen/StudentReports.js:76-81 | the class and department inputs set their fields only |
| `StudentReports.StudentReportsScreen.SelectFilter` | src/Screen/StudentReports.js:83-86 | the filter becomes the chosen month or week |
| `StudentReports.StudentReportsScreen.FetchReports` | src/Screen/StudentReports.js:36-64 | requests the role's URL; a success stores data, and data2 only for a student; a refusal clears both lists; an exception keeps both |
| `StudentReports.StudentReportsScreen.ValueChanged` | src/Screen/StudentReports.js:66-70 | the automatic fetch fires iff the value is non-empty; no method changes the value |
| `StudentReports.StudentReportsScreen.Shown` | src/Screen/StudentReports.js:91 | the filtered rows for a student, every row otherwise |
| `StudentReports.StudentReportsScreen.Columns` | src/Screen/StudentReports.js:95-98 | the roll-number column appears iff the viewer is not a student |
| `Profile.NatToString` | src/Screen/Profile.js:56 | the digits denote the number and have no leading zero |
| `Profile.JsString` | src/Screen/Profile.js:56 | `String(v)`: "undefined", "null", the string, the decimal digits of the number (after a minus sign when negative, with no leading zero), the comma-joined list |
| `Profile.OrDefault` | src/Screen/Profile.js:50-57 | a truthy field is kept and a falsy one replaced by the default |
| `Profile.RolesText` | src/Screen/Profile.js:51-53 | a roles list is joined with ", ", a scalar kept, an absent one gives "" |
| `Profile.RollNoFallbackNeverApplies` | src/Screen/Profile.js:56 | the roll number is `String(rollNo)` itself; a missing one reads "undefined" |
| `Profile.Normalize` | src/Screen/Profile.js:49-58 | email, department and class default to "", the year to "I", the roles and roll number as above |
| `Profile.NormalizeKeepsStrings` | src/Screen/Profile.js:49-58 | a record of non-empty strings fills the form unchanged |
| `Profile.NormalizeOfEmptyRecord` | src/Screen/Profile.js:49-58 | an empty record gives year "I", roll number "undefined" and empty fields |
| `Profile.Update` | src/Screen/Profile.js:73-75 | the named key takes the value; every other key is unchanged |
| `Profile.UpdateLaws` | src/Screen/Profile.js:73-75 | writing a field's own value is a no-op and a second write overrides the first |
| `Profile.UpdatePath` | src/Screen/Profile.js:81 | the update goes to /api/updateprofile/ followed by the form's roll number |
| `Profile.ProfileScreen.constructor` | src/Screen/Profile.js:21-30 | loading, empty form, no user |
| `Profile.ProfileScreen.FetchData` | src/Screen/Profile.js:33-68 | no token: an error and no change; a success with a record fills the form; other outcomes alert and keep the form; loading ends |
| `Profile.ProfileScreen.HandleChange` | src/Screen/Profile.js:73-75 | the form is updated at that key only |
| `Profile.ProfileScreen.HandleSubmit` | src/Screen/Profile.js:77-99 | the whole form goes to its roll number's path; only a success navigates to Dashboard |
| `ForgotPassword.StepName` | src/Screen/ForgotPassword.js:20 | the step is "send" or "verify" |
| `ForgotPassword.Title` | src/Screen/ForgotPassword.js:73 | "Forgot Password" iff sending, "Verify Code" iff verifying |
| `ForgotPassword.ShownInputs` | src/Screen/ForgotPassword.js:76-134 | the email input iff sending; the code and password inputs iff verifying |
| `ForgotPassword.CanVerify` | src/Screen/ForgotPassword.js:46 | verifying needs none of email, code and new password to be empty |
| `ForgotPassword.ScreenDependsOnlyOnStep` | src/Screen/ForgotPassword.js:72-134 | the title and inputs are a function of the step and tell the steps apart |
| `ForgotPassword.ForgotPasswordScreen.constructor` | src/Screen/ForgotPassword.js:17-21 | step "send", empty fields, password hidden |
| `ForgotPassword.ForgotPasswordScreen.SetEmail` | src/Screen/ForgotPassword.js:84 | sets the email only |
| `ForgotPassword.ForgotPasswordScreen.SetCode` | src/Screen/ForgotPassword.js:107 | sets the code only |
| `ForgotPassword.ForgotPasswordScreen.SetNewPassword` | src/Screen/ForgotPassword.js:119 | sets the new password only |
| `ForgotPassword.ForgotPasswordScreen.TogglePasswordVisibility` | src/Screen/ForgotPassword.js:122 | flips the password visibility only |
| `ForgotPassword.ForgotPasswordScreen.SendCode` | src/Screen/ForgotPassword.js:25-43 | no request without an email; only a success moves to "verify"; the step never moves back |
| `ForgotPassword.ForgotPasswordScreen.VerifyCode` | src/Screen/ForgotPassword.js:45-67 | no request unless email, code and password are filled; the request carries email, providedCode and newPassword; only a success navigates to Login |
| `ForgotPassword.ForgotPasswordScreen.PressLoginLink` | src/Screen/ForgotPassword.js:136 | the link navigates to Login |
| `StudentLeaveRequest.InitialForm` | src/Screen/StudentLeaveRequest.js:15-21 | type "Leave", empty reason and roll number, both dates now |
| `StudentLeaveRequest.ToggleKind` | src/Screen/StudentLeaveRequest.js:85-88 | "Leave" becomes "OD" and anything else "Leave" |
| `StudentLeaveRequest.ToggleKindTwice` | src/Screen/StudentLeaveRequest.js:85-88 | toggling twice restores Leave or OD |
| `StudentLeaveRequest.FileCaption` | src/Screen/StudentLeaveRequest.js:135 | the attachment caption names the picked file, or invites one |
| `StudentLeaveRequest.CanSubmit` | src/Screen/StudentLeaveRequest.js:47 | submitting needs neither roll number nor reason to be empty |
| `StudentLeaveRequest.ResetFormCannotSubmit` | src/Screen/StudentLeaveRequest.js:47-61 | the reset form fails the submit guard |
| `StudentLeaveRequest.LeaveRequestScreen.constructor` | src/Screen/StudentLeaveRequest.js:15-24 | the initial form, no file, not loading |
| `StudentLeaveRequest.LeaveRequestScreen.ToggleType` | src/Screen/StudentLeaveRequest.js:84-88 | the type toggles and the rest of the form is kept |
| `StudentLeaveRequest.LeaveRequestScreen.SetRollNo` | src/Screen/StudentLeaveRequest.js:77 | sets the roll number only |
| `StudentLeaveRequest.LeaveRequestScreen.SetReason` | src/Screen/StudentLeaveRequest.js:128 | sets the reason only |
| `StudentLeaveRequest.LeaveRequestScreen.SetStartDate` | src/Screen/StudentLeaveRequest.js:102-105 | sets the start date only |
| `StudentLeaveRequest.LeaveRequestScreen.EndDateMinimum` | src/Screen/StudentLeaveRequest.js:116 | the end-date picker's minimum is the current start date |
| `StudentLeaveRequest.LeaveRequestScreen.SetEndDate` | src/Screen/StudentLeaveRequest.js:117-120 | sets the end date only |
| `StudentLeaveRequest.LeaveRequestScreen.PickDocument` | src/Screen/StudentLeaveRequest.js:29-43 | a picked file replaces the attachment; a cancel or error only alerts |
| `StudentLeaveRequest.LeaveRequestScreen.HandleSubmit` | src/Screen/StudentLeaveRequest.js:46-65 | without roll number or reason an error and no change; otherwise, after the delay, the form is reset, the file cleared and loading off; nothing is sent |
| `SignupPage.DefaultFormIncomplete` | src/Screen/SignupPage.js:11-16 | the default role is filled in but the default form fails the guard |
| `SignupPage.CanRegister` | src/Screen/SignupPage.js:25 | registering needs none of email, password, roll number and role to be empty |
| `SignupPage.SetField` | src/Screen/SignupPage.js:53-78 | each input replaces its own field only |
| `SignupPage.FilledFormCanRegister` | src/Screen/SignupPage.js:25 | filling all four fields passes the guard |
| `SignupPage.SignupScreen.constructor` | src/Screen/SignupPage.js:11-19 | the default form and no messages |
| `SignupPage.SignupScreen.HandleInput` | src/Screen/SignupPage.js:53-78 | the form is updated at that field only |
| `SignupPage.SignupScreen.HandleSubmit` | src/Screen/SignupPage.js:21-41 | messages cleared; sent iff all four fields are filled; a success resets the form and navigates to "Dashbord"; a refusal changes nothing; an exception alerts |
| `SignupPage.SignupScreen.PressLoginLink` | src/Screen/SignupPage.js:82 | the link navigates to Login |
| `LoadingComponent.NextDots` | src/Screen/LoadingComponent.js:23 | a tick maps d to d+1 below 3 and to 1 otherwise; the result is always 1..3 |
| `LoadingComponent.Ticks` | src/Screen/LoadingComponent.js:22-24 | after at least one tick the count is in 1..3 |
| `LoadingComponent.ThreeTicksCycle` | src/Screen/LoadingComponent.js:23 | three ticks return the count to its start |
| `LoadingComponent.TicksPeriodic` | src/Screen/LoadingComponent.js:22-24 | any whole number of three-tick cycles returns the count to its start |
| `LoadingComponent.TicksAdd` | src/Screen/LoadingComponent.js:22-24 | m+n ticks are m ticks followed by n |
| `LoadingComponent.LoadingText` | src/Screen/LoadingComponent.js:54 | "Loading" followed by exactly that many full stops |
| `LoadingComponent.Loader.constructor` | src/Screen/LoadingComponent.js:18 | the count starts at 1 |
| `LoadingComponent.Loader.Tick` | src/Screen/LoadingComponent.js:22-24 | the interval advances the count and keeps it in 1..3 |
| `LoadingComponent.Loader.Text` | src/Screen/LoadingComponent.js:54 | the text is seven letters plus the count's stops |
| `LoadingComponent.TickThrice` | src/Screen/LoadingComponent.js:22-24 | three interval ticks leave the counter where it was |
| `SplitStyles.SplitStyles` | src/utils/splitStyles.js:1-5 | falsy gives an empty object, an array is returned unchanged, a single style is wrapped; the result is never falsy |
| `SplitStyles.SplitStylesIdempotent` | src/utils/splitStyles.js:4 | for a truthy argument the result is an array and splitting it again changes nothing |
| `SplitStyles.SplitStylesKeepsObjects` | src/utils/splitStyles.js:4 | the result carries exactly the styles the argument carried |
| `Common.Filter` | src/Screen/StudentLeaveStatus.js:69-71 | `filter` keeps, in order, exactly the passing elements, each with its multiplicity |
| `Common.Join` | src/Screen/ExamHallPost.js:36 | `join`: "" for no items, the item alone for one, otherwise the first item and the separator lead |
| `Common.JoinAppend` | src/Screen/ExamHallPost.js:36 | joining one more item appends the separator and the item |
| `Common.ToLower` | src/Screen/StudentLeaveStatus.js:70 | each character is lower-cased on its own (an ASCII capital becomes its own small letter) and the length is kept |

## Findings

| source | as written | input that shows it | evidently intended | confidence | as-written member | corrected member |
|---|---|---|---|---|---|---|
| src/Screen/ExamHallPost.js:66-113 | the screen has inputs for roll number, year, exam date and exam type only, yet `postHalls` requires class, hall and department too | any form the screen can reach, e.g. the initial one with every input filled | an input for each of the seven required fields, so a filled form is posted | high (not executed) | `ExamHallPost.ScreenAlwaysMissesThree` | `ExamHallPost.FilledFormPasses` |
| src/Screen/InternalMarkUpload.js:35 | `AsyncStorage.getItem` is called in both `try` blocks (lines 35 and 73) but `AsyncStorage` is never imported (lines 1-14), so both throw | any press of Fetch Students with all selections made | the token is read from storage and the roster is fetched | high (not executed) | `InternalMarkUpload.UploadAfterThrownFetch` | `InternalMarkUpload.UploadAfterFetch` |
| src/Screen/FetchAnnouncements.js:48-51 | `handleRefresh` calls the `fetchAnnouncements` of the current render, which captured `refreshing` as false, so the `!refreshing` test passes | a successful pull-to-refresh from an idle screen | a refresh shows no success toast | high (not executed) | `FetchAnnouncements.AnnouncementsScreen.HandleRefresh` | `FetchAnnouncements.AnnouncementsScreen.HandleRefreshIntended` |

## Left out

- Network, storage and the token: every axios call, AsyncStorage read and token removal is a parameter (`Outcome`, `TokenRead`, `hasToken`). `jwtDecode` is taken as already decided.
- The request URLs' `apiUrl` prefix is left out. src/Screen/LeaveApproval.js and src/Screen/StudentLeaveStatus.js use `apiUrl` without declaring it. Unless it is defined globally elsewhere, their requests would throw and always take the exception path. The model leaves the outcome open.
- Rendering details are left out: layout, styles, icons, `scaleWidth`/`scaleHeight`, toasts and alerts beyond their title and text, opening a document URL, `toLocaleString`/`toDateString` date formatting.
- Timers and animation: `setInterval`, `setTimeout` and `Animated.loop`. The loading counter is modelled by its tick. The leave-request submit is modelled by its state after the delay.
- Async interleaving is not modelled: overlapping awaits, state read by stale closures, and effects re-run by dependency changes. One example is the announcement refresh's dependency on `refreshing`, which makes the effect fetch again. Each handler is modelled as running alone to completion.
- `FetchAnnouncements.AnnouncementsScreen.HandleRefresh`: the effect re-runs whenever `refreshing` changes (src/Screen/FetchAnnouncements.js:42-46). One refresh therefore starts two more fetches, the last of which shows the spinner and toasts again. Only the fetch that the refresh itself runs is modelled.
- Date values are opaque (`Date(stamp)`). The date pickers' open/closed flags are not modelled.
- Case folding covers ASCII letters only. Strings are sequences of characters, not UTF-16 code units.
- `Profile.JsString` covers strings, numbers, lists of strings, `null` and `undefined`. Other JSON values are not modelled. Numbers that `||` keeps are stored as their decimal text.
- `Profile.ProfileScreen.HandleChange` accepts every key of the form. The screen wires no input to the roll number.
- `CCAttendance`: the records are a list of (period, record) entries. That list follows the server's object key order, not JavaScript's integer-key-first ordering. A record that lacks `Present` or `absent` (which would throw while rendering) is not modelled.
- `LeaveApproval.RenderCard`: a status without a badge style fails to render in the source. The model returns `None` there and does not model the crash.
- `StudentReports`: `value` has no setter in the source, so the automatic fetch is modelled but never fires. A response without `data2` for a student is modelled as an empty list rather than `undefined`.
- Screens outside this model: TeacherTimeTable, TimeTable, HodAnnoucements, ExamHallFinder, HomePage, Dashboard, Login, DepartmentAttendanceDashboard and App.js. They are navigation wiring or single passthrough calls with no logic to state.
