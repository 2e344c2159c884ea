# Attendance settings page: gradebook synchronisation

This project models the gradebook-sync state machine of the Sakai Attendance tool's settings
page (`SettingsPage`). The page remembers three values from the attendance site when it is
built: whether the site sends grades to the gradebook, the gradebook item name and the maximum
grade. Each form submission goes through these steps in order:

1. It copies the auto-grading radio choices onto the site.
2. It forces "send to gradebook" and auto-grading off when the maximum grade has just been
   cleared.
3. It asks the settings service to save the site.
4. If the save succeeded, it makes at most one gradebook call (create, update or remove).
5. It refreshes its remembered values.
6. If auto-grading is on and the maximum grade is positive, it asks for a regrade of the whole
   site.

The model has three modules:

- `Wrappers`: `Option`, the stand-in for a Java reference that may be null.
- `Attendance`: the site's fields and the page's snapshot as values, and the decision logic as
  pure functions whose contracts state the page's promises. It also holds two classes.
  `AttendanceSite` is the record that the page updates in place. `SettingsPage` holds the
  snapshot fields and the two radio models. Its `Submit` method follows `onSubmit` step by
  step, and its contract ties the new site, the emitted calls and the new snapshot to the pure
  functions.
- `GradebookSync`: the external gradebook item that the page's calls shape, and lemmas over
  any series of submissions.

Collaborators are not modelled:

- The settings service's save becomes the input `saveSucceeded`.
- The calls to the gradebook provider and to `regradeAll` become the emitted `Action`s
  `Create`, `Update`, `Remove` and `Regrade`.
- The user's role is an input of `SettingsPage.Open`.
- The settings service's read of the current site is `SiteService.GetCurrent`. Each call hands
  out a new record of the stored settings and counts as one fetch.

The source has latent null dereferences. Each one is a precondition, so the model shows when
the Java would throw:

- `ComparisonDefined` covers line 85. `previousName` is always dereferenced there.
  `previousMaxGrade` is dereferenced only when the names are equal, because `||`
  short-circuits and `String.equals(null)` is false.
- `RegradeDefined` covers line 103. Auto-unboxing the maximum grade happens only when
  auto-grading is `true`.
- `SubmitDefined` combines both. It is evaluated on the site after the forced switch-off.

`AbsentMaximumGradeReachesComparison` shows that the line-85 dereference of an absent
maximum grade can be reached from a stored site that already sends and has no maximum grade.

## Model

| member | source | states |
|---|---|---|
| `Attendance.ApplyForm` | tool/src/java/org/sakaiproject/attendance/tool/pages/SettingsPage.java:72-78 | The saved site takes both radio choices. When the maximum grade is now absent and the previous one was present, sending and auto-grading are off whatever the form held; otherwise the form's flag and radio choice stand. Name and maximum grade are never touched. |
| `Attendance.GradebookAction` | tool/src/java/org/sakaiproject/attendance/tool/pages/SettingsPage.java:83-97 | At most one gradebook call, never a regrade. The call is `[Create]` iff sending starts, `[Update]` iff sending continues and the name or maximum grade differs from the snapshot, and `[Remove]` iff sending stops; in every other case there is no call. |
| `Attendance.Effects` | tool/src/java/org/sakaiproject/attendance/tool/pages/SettingsPage.java:80-110 | A failed save emits nothing. Create, Update and Remove each appear iff the save succeeded and their condition holds. Regrade appears iff the save succeeded, auto-grading is true and the maximum grade is positive, and it is last. At most two calls. |
| `Attendance.NextSnapshot` | tool/src/java/org/sakaiproject/attendance/tool/pages/SettingsPage.java:89-100 | A failed save leaves the snapshot unchanged. A successful save sets the flag and the maximum grade to the saved site's values. The name is refreshed when the site sent before and still sends, and it changes in no other case. |
| `Attendance.NextSnapshotCorrected` | tool/src/java/org/sakaiproject/attendance/tool/pages/SettingsPage.java:89-100 | The corrected refresh, stated against the page's own refresh `NextSnapshot`. The flag and the maximum grade are the same as there. Every successful save sets the name to the saved site's. The name differs from the page's refresh only after a successful save in which the site was not sending both before and after. |
| `Attendance.SettingsPage.constructor` | tool/src/java/org/sakaiproject/attendance/tool/pages/SettingsPage.java:153-158 | The snapshot is the current site's flag, item name and maximum grade. The radio models hold the site's auto-grading choices. |
| `Attendance.SiteService.GetCurrent` | tool/src/java/org/sakaiproject/attendance/tool/pages/SettingsPage.java:153 | Each read of the current site returns a new record holding the stored settings and adds one to the fetch count. The stored settings do not change. |
| `Attendance.SettingsPage.Open` | tool/src/java/org/sakaiproject/attendance/tool/pages/SettingsPage.java:56-67 | A user whose role is exactly "Student" is redirected: no page, no form record, and the service's fetch count is unchanged. Anyone else, including a user with no role, causes exactly two fetches (lines 67 and 153). The result is a fresh form record with the stored settings and a fresh page whose snapshot and radio models are the stored site's. |
| `Attendance.SettingsPage.BindRadios` | tool/src/java/org/sakaiproject/attendance/tool/pages/SettingsPage.java:193-203 | The radio groups write the user's choices into the page's two models. The snapshot is unchanged. |
| `Attendance.SettingsPage.Submit` | tool/src/java/org/sakaiproject/attendance/tool/pages/SettingsPage.java:69-113 | Requires that no null is dereferenced at lines 85 and 103. The site becomes `ApplyForm` of its old value. The returned calls are `Effects` of the saved site against the old snapshot. The snapshot becomes `NextSnapshot`, and the radio models are unchanged. |
| `GradebookSync.PerformEffects` | tool/src/java/org/sakaiproject/attendance/tool/pages/SettingsPage.java:83-105 | After a successful save, the calls leave the gradebook item as follows: the saved name and points when sending starts, or continues with a change; no item when sending stops; untouched otherwise. The regrade does not touch the item. |
| `GradebookSync.SubmitKeepsPresence` | tool/src/java/org/sakaiproject/attendance/tool/pages/SettingsPage.java:80-100 | One submission, as written or corrected, keeps two facts true. The item exists exactly when the snapshot says the site sends. The item's points equal the snapshot's maximum grade. |
| `GradebookSync.RunKeepsPresence` | tool/src/java/org/sakaiproject/attendance/tool/pages/SettingsPage.java:80-100 | Any series of submissions that does not throw keeps the item's presence and points in step with the snapshot. |
| `GradebookSync.CorrectedSubmitKeepsSync` | tool/src/java/org/sakaiproject/attendance/tool/pages/SettingsPage.java:80-100 | With the corrected refresh, one submission keeps the item equal to what the snapshot records. After a successful save the item is the saved site's name and points while the site sends, and absent otherwise. |
| `GradebookSync.CorrectedRunKeepsSync` | tool/src/java/org/sakaiproject/attendance/tool/pages/SettingsPage.java:80-100 | With the corrected refresh, any series of submissions that does not throw keeps the item equal to what the snapshot records. |
| `GradebookSync.StaleNameSkipsUpdate` | tool/src/java/org/sakaiproject/attendance/tool/pages/SettingsPage.java:84-91 | As written, two steps leave the item with the wrong name. Step 1 starts sending under a new name: a Create, but the old name stays in the snapshot. Step 2 renames back to the old name: no call, so the item keeps the new name. With the corrected refresh, step 2 updates the item to the old name. |
| `GradebookSync.AbsentMaximumGradeReachesComparison` | tool/src/java/org/sakaiproject/attendance/tool/pages/SettingsPage.java:75-100 | A stored site that already sends and has no maximum grade, when the page built from it resubmits it unchanged with a successful save, reaches the line-85 dereference of the absent previous maximum grade. No form step is needed. |
| `GradebookSync.UnwrittenFlagNeverCreates` | tool/src/java/org/sakaiproject/attendance/tool/pages/SettingsPage.java:83-100 | If the submitted site sends only when the snapshot already did, there is no Create, and the new snapshot sends only if the old one did. The check box at line 184 never writes the site's flag, so within this page that condition always holds. |

## Findings

| source | as written | input that shows it | evidently intended | confidence | as-written member | corrected member |
|---|---|---|---|---|---|---|
| tool/src/java/org/sakaiproject/attendance/tool/pages/SettingsPage.java:84-91 | `previousName` is refreshed only when the site was sending before and still sends. Create leaves it stale. | Snapshot (not sending, "Attendance", 10). The site's flag is turned on and the name set to "Participation", then the page saves it: Create. Then a submission with name "Attendance": no Update, so the gradebook item stays "Participation". Reachable only when something outside this page turns the site's flag on: the check box at line 184 has its own model and never writes the flag (`UnwrittenFlagNeverCreates`). | Every successful save refreshes the name, like the other two snapshot values. The item then always matches the last save (`CorrectedRunKeepsSync`). | not executed; the logic follows from the code, but within this page alone the input is not reachable, because the flag must be set elsewhere | `GradebookSync.StaleNameSkipsUpdate` | `Attendance.NextSnapshotCorrected` |

`SettingsPage.Submit` follows the code as written and uses `NextSnapshot`. The gradebook
lemmas use `NextSnapshotCorrected` to state the intended agreement, and `StaleNameSkipsUpdate`
runs both refreshes on the same submissions.

## Left out

- Wicket UI construction is not modelled: labels, containers, check boxes, radio widgets, the
  submit link, the feedback panel and placeholder tags. It is presentation wiring.
- Binding form fields onto the site is not modelled either; it is the framework's work.
  `Submit` takes whatever the site holds at submission, so it also covers a flag changed
  outside this page. In the source, the send-to-gradebook check box has its own model
  (line 184), so the form never writes the site's flag. Within this page a Create is then
  impossible (`UnwrittenFlagNeverCreates`), and the stale-name finding needs the flag to be
  turned on elsewhere.
- `attendanceLogic.getCurrentAttendanceSite` is called twice, at line 67 and at line 153.
  `SettingsPage.Open` makes both calls and gets two distinct records with the stored settings.
  `Submit` accepts any site record, independent of the one the snapshot came from, which is
  the more general case.
- The internals of `updateAttendanceSite`, `regradeAll`, `isGradebookDefined` and the
  gradebook provider's create, update and remove are not visible, so they are not modelled.
  The save is an input and the calls are emitted actions. In `GradebookSync`, a create or an
  update writes the site's name and points, and a remove deletes the item.
- `aS.setAttendanceStatuses()` and the status and comment panels are not modelled: their
  internals are not shown.
- Field validation is not modelled: the item-name validator, the required name and the
  number field's minimum and step. The model does not assume that validation ran, so it
  allows any name and grade, including absent ones. In the source, the required name
  (line 179) is never absent on submission.
- Success and failure messages are not modelled: they are only shown to the user.
- The maximum grade is modelled as an exact `real`. Only presence, equality and `> 0` are
  used. `Double.equals` on NaN and on signed zeros is not modelled.
- The site's send-to-gradebook flag is a plain boolean. The entity class is not part of this
  model, so a null flag, which would make lines 83 and 100 throw, is not represented.
- Exceptions are preconditions. `Submit` requires the inputs under which the Java completes,
  so the model does not show the partly-done state of a submission that throws at line 85 or
  line 103 after the save.
- `autoGradeBySubtraction` is copied onto the site and nothing more; nothing in the page
  decides anything from it.
