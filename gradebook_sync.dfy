/**
 * What the settings page's calls do to the external gradebook over a series of submissions.
 *
 * The gradebook provider is reduced to the one attendance item it keeps for the site: a create
 * or an update gives the item the saved site's name and maximum grade, a remove deletes it.
 * The lemmas say which agreement between the page's snapshot and that item every submission
 * keeps, as the page is written and with the snapshot refresh corrected.
 */
module GradebookSync {
  import opened Wrappers
  import opened Attendance

  /** The site's attendance item in the external gradebook. */
  datatype GradebookItem = NoItem | Item(name: Option<string>, points: Option<real>)

  /** The item after the gradebook provider has carried out `actions` for the saved site. */
  function Perform(item: GradebookItem, actions: seq<Action>, saved: Site): GradebookItem
    decreases |actions|
  {
    if actions == [] then
      item
    else
      var next := match actions[0]
        case Create => Item(saved.gradebookItemName, saved.maximumGrade)
        case Update => Item(saved.gradebookItemName, saved.maximumGrade)
        case Remove => NoItem
        case Regrade => item;
      Perform(next, actions[1..], saved)
  }

  /** The item exists exactly while the snapshot says the site sends, and carries its points. */
  predicate PresenceInSync(snap: Snapshot, item: GradebookItem) {
    item.Item? == snap.sendToGradebook && (item.Item? ==> item.points == snap.maxGrade)
  }

  /** The item is exactly what the snapshot says was last sent to the gradebook. */
  predicate InSync(snap: Snapshot, item: GradebookItem) {
    item == if snap.sendToGradebook then Item(snap.name, snap.maxGrade) else NoItem
  }

  /** One submission: the site as the form bound it, the radio choices, the save's outcome. */
  datatype Submission = Submission(form: Site, radios: Radios, saveSucceeded: bool)

  /** How the snapshot is refreshed after a submission: as the page does it, or corrected. */
  datatype Refresh = AsWritten | Corrected

  function Saved(snap: Snapshot, sub: Submission): Site {
    ApplyForm(sub.form, sub.radios, snap.maxGrade)
  }

  function Advance(refresh: Refresh, snap: Snapshot, sub: Submission): Snapshot {
    match refresh
    case AsWritten => NextSnapshot(Saved(snap, sub), snap, sub.saveSucceeded)
    case Corrected => NextSnapshotCorrected(Saved(snap, sub), snap, sub.saveSucceeded)
  }

  predicate StepDefined(snap: Snapshot, sub: Submission) {
    SubmitDefined(sub.form, sub.radios, snap, sub.saveSucceeded)
  }

  /** The item after the collaborator calls of one submission. */
  function StepItem(snap: Snapshot, item: GradebookItem, sub: Submission): GradebookItem
    requires StepDefined(snap, sub)
  {
    var saved := Saved(snap, sub);
    Perform(item, Effects(saved, snap, sub.saveSucceeded), saved)
  }

  /** No submission of the run makes the page throw a null-pointer exception. */
  predicate RunDefined(refresh: Refresh, snap: Snapshot, subs: seq<Submission>)
    decreases |subs|
  {
    subs == [] ||
    (StepDefined(snap, subs[0]) && RunDefined(refresh, Advance(refresh, snap, subs[0]), subs[1..]))
  }

  /** Snapshot and item after the page has handled `subs` in order. */
  function Run(refresh: Refresh, snap: Snapshot, item: GradebookItem, subs: seq<Submission>)
    : (Snapshot, GradebookItem)
    requires RunDefined(refresh, snap, subs)
    decreases |subs|
  {
    if subs == [] then
      (snap, item)
    else
      Run(refresh, Advance(refresh, snap, subs[0]), StepItem(snap, item, subs[0]), subs[1..])
  }

  /** The calls of a successful save leave the item as its one gradebook call makes it. */
  lemma {:induction false} PerformEffects(item: GradebookItem, saved: Site, snap: Snapshot)
    requires ComparisonDefined(saved, snap) && RegradeDefined(saved)
    ensures Perform(item, Effects(saved, snap, true), saved) ==
              if saved.sendToGradebook && (!snap.sendToGradebook || ChangedSince(saved, snap)) then
                Item(saved.gradebookItemName, saved.maximumGrade)
              else if !saved.sendToGradebook && snap.sendToGradebook then
                NoItem
              else
                item
  {
    var g := GradebookAction(saved, snap);
    var r := Effects(saved, snap, true);
    assert r == g || r == g + [Regrade];
    if r == g + [Regrade] {
      if g == [] {
        assert Perform(item, r, saved) == Perform(item, [], saved);
      } else {
        assert r[0] == g[0] && r[1..] == [Regrade] && g[1..] == [];
        assert [Regrade][1..] == [];
      }
    }
  }

  /** One submission keeps the item's presence and points in step with the snapshot. */
  lemma SubmitKeepsPresence(refresh: Refresh, snap: Snapshot, item: GradebookItem, sub: Submission)
    requires PresenceInSync(snap, item) && StepDefined(snap, sub)
    ensures PresenceInSync(Advance(refresh, snap, sub), StepItem(snap, item, sub))
  {
    if sub.saveSucceeded {
      PerformEffects(item, Saved(snap, sub), snap);
    }
  }

  /**
   * Over any run the page does not abort, the item exists exactly while the page believes the
   * site sends to the gradebook, with the points of the last save: as written, too.
   */
  lemma {:induction false} RunKeepsPresence(refresh: Refresh, snap: Snapshot, item: GradebookItem,
                                            subs: seq<Submission>)
    requires PresenceInSync(snap, item) && RunDefined(refresh, snap, subs)
    ensures PresenceInSync(Run(refresh, snap, item, subs).0, Run(refresh, snap, item, subs).1)
    decreases |subs|
  {
    if subs != [] {
      SubmitKeepsPresence(refresh, snap, item, subs[0]);
      RunKeepsPresence(refresh, Advance(refresh, snap, subs[0]), StepItem(snap, item, subs[0]), subs[1..]);
    }
  }

  /**
   * With the corrected refresh one submission keeps the item exactly what the snapshot says,
   * and after a successful save that is the saved site's name and points while it sends.
   */
  lemma CorrectedSubmitKeepsSync(snap: Snapshot, item: GradebookItem, sub: Submission)
    requires InSync(snap, item) && StepDefined(snap, sub)
    ensures InSync(Advance(Corrected, snap, sub), StepItem(snap, item, sub))
    ensures sub.saveSucceeded ==>
              InSync(SnapshotOf(Saved(snap, sub)), StepItem(snap, item, sub))
  {
    if sub.saveSucceeded {
      PerformEffects(item, Saved(snap, sub), snap);
    }
  }

  /** With the corrected refresh the item stays exactly what the snapshot says over any run. */
  lemma {:induction false} CorrectedRunKeepsSync(snap: Snapshot, item: GradebookItem,
                                                 subs: seq<Submission>)
    requires InSync(snap, item) && RunDefined(Corrected, snap, subs)
    ensures InSync(Run(Corrected, snap, item, subs).0, Run(Corrected, snap, item, subs).1)
    decreases |subs|
  {
    if subs != [] {
      CorrectedSubmitKeepsSync(snap, item, subs[0]);
      CorrectedRunKeepsSync(Advance(Corrected, snap, subs[0]), StepItem(snap, item, subs[0]), subs[1..]);
    }
  }

  /**
   * As written, the name goes stale: a site whose flag is turned on (outside the page, whose
   * check box does not write it) under a new name keeps the old name in its snapshot, so
   * renaming it back to that old name makes no update and the gradebook item keeps the new
   * name. The corrected refresh makes the update.
   */
  lemma StaleNameSkipsUpdate()
    ensures var start := Snapshot(false, Some("Attendance"), Some(10.0));
            var radios := Radios(Some(false), Some(true));
            var turnOn := Submission(Site(true, Some("Participation"), Some(10.0), None, None), radios, true);
            var renameBack := Submission(Site(true, Some("Attendance"), Some(10.0), None, None), radios, true);
            var afterOn := Advance(AsWritten, start, turnOn);
            var itemOn := StepItem(start, NoItem, turnOn);
            InSync(start, NoItem) && RunDefined(AsWritten, start, [turnOn, renameBack]) &&
            itemOn == Item(Some("Participation"), Some(10.0)) &&
            afterOn.name == Some("Attendance") &&
            Effects(Saved(afterOn, renameBack), afterOn, true) == [] &&
            Run(AsWritten, start, NoItem, [turnOn, renameBack]).1 == Item(Some("Participation"), Some(10.0)) &&
            !InSync(Run(AsWritten, start, NoItem, [turnOn, renameBack]).0,
                    Run(AsWritten, start, NoItem, [turnOn, renameBack]).1) &&
            Run(Corrected, start, NoItem, [turnOn, renameBack]).1 == Item(Some("Attendance"), Some(10.0))
  {
    var start := Snapshot(false, Some("Attendance"), Some(10.0));
    var radios := Radios(Some(false), Some(true));
    var turnOn := Submission(Site(true, Some("Participation"), Some(10.0), None, None), radios, true);
    var renameBack := Submission(Site(true, Some("Attendance"), Some(10.0), None, None), radios, true);
    var afterOn := Advance(AsWritten, start, turnOn);
    PerformEffects(NoItem, Saved(start, turnOn), start);
    PerformEffects(StepItem(start, NoItem, turnOn), Saved(afterOn, renameBack), afterOn);
    var fixedOn := Advance(Corrected, start, turnOn);
    PerformEffects(StepItem(start, NoItem, turnOn), Saved(fixedOn, renameBack), fixedOn);
    assert [turnOn, renameBack][1..] == [renameBack];
    assert [renameBack][1..] == [];
    var itemOn := StepItem(start, NoItem, turnOn);
    assert Run(AsWritten, start, NoItem, [turnOn, renameBack])
        == Run(AsWritten, afterOn, itemOn, [renameBack]);
    assert Run(AsWritten, afterOn, itemOn, [renameBack])
        == Run(AsWritten, Advance(AsWritten, afterOn, renameBack), StepItem(afterOn, itemOn, renameBack), []);
    assert Run(Corrected, start, NoItem, [turnOn, renameBack])
        == Run(Corrected, fixedOn, itemOn, [renameBack]);
    assert Run(Corrected, fixedOn, itemOn, [renameBack])
        == Run(Corrected, Advance(Corrected, fixedOn, renameBack), StepItem(fixedOn, itemOn, renameBack), []);
  }

  /**
   * The null dereference of the previous maximum grade is reachable without any help from the
   * form: a stored site that already sends and has no maximum grade, resubmitted unchanged,
   * makes the page compare the names, find them equal and dereference the absent grade.
   */
  lemma AbsentMaximumGradeReachesComparison()
    ensures var stored := Site(true, Some("Attendance"), None, Some(false), Some(true));
            var resubmit := Submission(stored, Radios(Some(false), Some(true)), true);
            !StepDefined(SnapshotOf(stored), resubmit)
  {
  }

  /**
   * A submission whose site does not send unless the snapshot already did never creates a
   * gradebook item and never turns sending on in the snapshot. Since the page's check box does
   * not write the site's flag, only a change made outside the page can lead to a create.
   */
  lemma UnwrittenFlagNeverCreates(refresh: Refresh, snap: Snapshot, sub: Submission)
    requires StepDefined(snap, sub)
    requires sub.form.sendToGradebook ==> snap.sendToGradebook
    ensures Create !in Effects(Saved(snap, sub), snap, sub.saveSucceeded)
    ensures Advance(refresh, snap, sub).sendToGradebook ==> snap.sendToGradebook
  {
  }
}
