/** A value that may be absent: the model's stand-in for a Java reference that may be null. */
module Wrappers {
  datatype Option<+T> = None | Some(value: T)
}

/**
 * The gradebook-sync state machine of the attendance tool's settings page.
 *
 * The page keeps three "previous" values (the snapshot) taken from the attendance site when
 * it is built. Every form submission copies the auto-grading radio choices onto the site,
 * forces gradebook sending and auto-grading off when the maximum grade has just been cleared,
 * saves the site, and, when the save succeeds, emits at most one gradebook action (create,
 * update or remove), refreshes the snapshot and possibly asks for a regrade of the whole site.
 *
 * The settings service and the gradebook provider are not modelled: whether the save succeeds
 * is an input, and the calls made to them are the emitted actions.
 */
module Attendance {
  import opened Wrappers

  /** The fields of an attendance site that the settings form reads and writes. */
  datatype Site = Site(
    sendToGradebook: bool,
    gradebookItemName: Option<string>,
    maximumGrade: Option<real>,
    useAutoGrading: Option<bool>,
    autoGradeBySubtraction: Option<bool>)

  /** The values held by the page's two radio-group models. */
  datatype Radios = Radios(useAutoGrading: Option<bool>, autoGradeBySubtraction: Option<bool>)

  /** The values of the last successful save that the page compares a submission against. */
  datatype Snapshot = Snapshot(sendToGradebook: bool, name: Option<string>, maxGrade: Option<real>)

  /** A call made to a collaborator after a successful save. */
  datatype Action =
    | Create   // gradebook provider: create the attendance grade item
    | Update   // gradebook provider: update the item's name or points
    | Remove   // gradebook provider: remove the item
    | Regrade  // settings service: recompute every recorded grade of the site

  /** The three values of a site that the snapshot mirrors. */
  function SnapshotOf(s: Site): Snapshot {
    Snapshot(s.sendToGradebook, s.gradebookItemName, s.maximumGrade)
  }

  /** The submission removes a maximum grade that the last save had. */
  predicate ClearsMaximumGrade(form: Site, previousMaxGrade: Option<real>) {
    form.maximumGrade.None? && previousMaxGrade.Some?
  }

  /**
   * The site as it is handed to the settings service: the radio choices copied onto it and,
   * when the maximum grade has just been cleared, sending and auto-grading switched off
   * whatever the form said. Name and maximum grade are never touched.
   */
  function ApplyForm(form: Site, radios: Radios, previousMaxGrade: Option<real>): (r: Site)
    ensures r.gradebookItemName == form.gradebookItemName && r.maximumGrade == form.maximumGrade
    ensures r.autoGradeBySubtraction == radios.autoGradeBySubtraction
    ensures ClearsMaximumGrade(form, previousMaxGrade) ==>
              !r.sendToGradebook && r.useAutoGrading == Some(false)
    ensures !ClearsMaximumGrade(form, previousMaxGrade) ==>
              r.sendToGradebook == form.sendToGradebook && r.useAutoGrading == radios.useAutoGrading
  {
    var copied := form.(useAutoGrading := radios.useAutoGrading,
                        autoGradeBySubtraction := radios.autoGradeBySubtraction);
    if ClearsMaximumGrade(form, previousMaxGrade) then
      copied.(sendToGradebook := false, useAutoGrading := Some(false))
    else
      copied
  }

  /**
   * The comparison of a still-sending site with the snapshot does not dereference null:
   * the previous name is always dereferenced, the previous maximum grade only when the names
   * are equal (the disjunction short-circuits, and a string never equals null).
   */
  predicate ComparisonDefined(saved: Site, snap: Snapshot) {
    saved.sendToGradebook && snap.sendToGradebook ==>
      snap.name.Some? && (saved.gradebookItemName == snap.name ==> snap.maxGrade.Some?)
  }

  /** The regrade test does not unbox a null maximum grade. */
  predicate RegradeDefined(saved: Site) {
    saved.useAutoGrading == Some(true) ==> saved.maximumGrade.Some?
  }

  /** The saved site's item name or maximum grade differs from the snapshot's. */
  predicate ChangedSince(saved: Site, snap: Snapshot) {
    saved.gradebookItemName != snap.name || saved.maximumGrade != snap.maxGrade
  }

  /** Auto-grading is on and the maximum grade is positive. */
  predicate RegradeWanted(saved: Site)
    requires RegradeDefined(saved)
  {
    saved.useAutoGrading == Some(true) && saved.maximumGrade.value > 0.0
  }

  /**
   * The one gradebook call a successful save makes: create when sending starts, update when
   * sending continues and the name or points changed, remove when sending stops.
   */
  function GradebookAction(saved: Site, snap: Snapshot): (r: seq<Action>)
    requires ComparisonDefined(saved, snap)
    ensures |r| <= 1 && Regrade !in r
    ensures r == [Create] <==> saved.sendToGradebook && !snap.sendToGradebook
    ensures r == [Update] <==>
              saved.sendToGradebook && snap.sendToGradebook && ChangedSince(saved, snap)
    ensures r == [Remove] <==> !saved.sendToGradebook && snap.sendToGradebook
  {
    if saved.sendToGradebook then
      if snap.sendToGradebook then
        if ChangedSince(saved, snap) then [Update] else []
      else
        [Create]
    else if snap.sendToGradebook then
      [Remove]
    else
      []
  }

  /**
   * Every collaborator call one submission makes after the save, in order: nothing when the
   * save failed; otherwise at most one gradebook call, then a regrade when it is wanted.
   */
  function Effects(saved: Site, snap: Snapshot, saveSucceeded: bool): (r: seq<Action>)
    requires saveSucceeded ==> ComparisonDefined(saved, snap) && RegradeDefined(saved)
    ensures !saveSucceeded ==> r == []
    ensures |r| <= 2 && (|r| == 2 ==> r[0] != Regrade && r[1] == Regrade)
    ensures Regrade in r <==> saveSucceeded && RegradeWanted(saved)
    ensures Create in r <==> saveSucceeded && saved.sendToGradebook && !snap.sendToGradebook
    ensures Update in r <==>
              saveSucceeded && saved.sendToGradebook && snap.sendToGradebook && ChangedSince(saved, snap)
    ensures Remove in r <==> saveSucceeded && !saved.sendToGradebook && snap.sendToGradebook
  {
    if !saveSucceeded then
      []
    else
      GradebookAction(saved, snap) + if RegradeWanted(saved) then [Regrade] else []
  }

  /**
   * The snapshot after a submission, as the page writes it: unchanged after a failed save;
   * after a successful one the flag and the maximum grade follow the saved site, but the
   * name is refreshed only when the site was sending before and still is.
   */
  function NextSnapshot(saved: Site, snap: Snapshot, saveSucceeded: bool): (r: Snapshot)
    ensures !saveSucceeded ==> r == snap
    ensures saveSucceeded ==>
              r.sendToGradebook == saved.sendToGradebook && r.maxGrade == saved.maximumGrade
    ensures saveSucceeded && saved.sendToGradebook && snap.sendToGradebook ==>
              r.name == saved.gradebookItemName
    ensures r.name != snap.name ==>
              saveSucceeded && saved.sendToGradebook && snap.sendToGradebook
  {
    if !saveSucceeded then
      snap
    else
      var name := if saved.sendToGradebook && snap.sendToGradebook then saved.gradebookItemName
                  else snap.name;
      Snapshot(saved.sendToGradebook, name, saved.maximumGrade)
  }

  /**
   * The snapshot as it should be after a submission: every successful save refreshes all
   * three values, so the next comparison is against what the gradebook item was given.
   * It agrees with the page's own refresh except for the name, which it also refreshes
   * after a save that starts, stops or keeps off sending.
   */
  function NextSnapshotCorrected(saved: Site, snap: Snapshot, saveSucceeded: bool): (r: Snapshot)
    ensures r.sendToGradebook == NextSnapshot(saved, snap, saveSucceeded).sendToGradebook
    ensures r.maxGrade == NextSnapshot(saved, snap, saveSucceeded).maxGrade
    ensures saveSucceeded ==> r.name == saved.gradebookItemName
    ensures r.name != NextSnapshot(saved, snap, saveSucceeded).name ==>
              saveSucceeded && !(saved.sendToGradebook && snap.sendToGradebook)
  {
    if saveSucceeded then SnapshotOf(saved) else snap
  }

  /** All that one submission needs in order not to throw a null-pointer exception. */
  predicate SubmitDefined(form: Site, radios: Radios, snap: Snapshot, saveSucceeded: bool) {
    var saved := ApplyForm(form, radios, snap.maxGrade);
    saveSucceeded ==> ComparisonDefined(saved, snap) && RegradeDefined(saved)
  }

  /** The per-site settings record, updated in place through its setters. */
  class AttendanceSite {
    var sendToGradebook: bool
    var gradebookItemName: Option<string>
    var maximumGrade: Option<real>
    var useAutoGrading: Option<bool>
    var autoGradeBySubtraction: Option<bool>

    function Value(): Site
      reads this
    {
      Site(sendToGradebook, gradebookItemName, maximumGrade, useAutoGrading, autoGradeBySubtraction)
    }

    constructor (s: Site)
      ensures Value() == s
    {
      sendToGradebook := s.sendToGradebook;
      gradebookItemName := s.gradebookItemName;
      maximumGrade := s.maximumGrade;
      useAutoGrading := s.useAutoGrading;
      autoGradeBySubtraction := s.autoGradeBySubtraction;
    }
  }

  /**
   * The settings service as far as the page reads from it: each request for the current site
   * hands out a new record holding the stored settings, and is counted.
   */
  class SiteService {
    var stored: Site
    ghost var fetches: nat

    constructor (s: Site)
      ensures stored == s && fetches == 0
    {
      stored := s;
      fetches := 0;
    }

    method GetCurrent() returns (site: AttendanceSite)
      modifies this
      ensures fresh(site) && site.Value() == stored
      ensures stored == old(stored) && fetches == old(fetches) + 1
    {
      site := new AttendanceSite(stored);
      fetches := fetches + 1;
    }
  }

  /** The settings page: the snapshot fields and the two radio-group models. */
  class SettingsPage {
    var previousSendToGradebook: bool
    var previousName: Option<string>
    var previousMaxGrade: Option<real>
    var useAutoGrading: Option<bool>
    var autoGradeBySubtraction: Option<bool>

    function Snap(): Snapshot
      reads this
    {
      Snapshot(previousSendToGradebook, previousName, previousMaxGrade)
    }

    function RadioValues(): Radios
      reads this
    {
      Radios(useAutoGrading, autoGradeBySubtraction)
    }

    /** Builds the grading part of the page: snapshot and radio models from the current site. */
    constructor (current: AttendanceSite)
      ensures Snap() == SnapshotOf(current.Value())
      ensures RadioValues() == Radios(current.useAutoGrading, current.autoGradeBySubtraction)
    {
      previousSendToGradebook := current.sendToGradebook;
      previousName := current.gradebookItemName;
      previousMaxGrade := current.maximumGrade;
      useAutoGrading := current.useAutoGrading;
      autoGradeBySubtraction := current.autoGradeBySubtraction;
    }

    /**
     * Opening the page. A student is redirected before the service is asked for the site:
     * no page, no form record, no fetch. Anyone else causes two fetches, one record that the
     * form edits and one that the snapshot and radio models are taken from.
     */
    static method Open(role: Option<string>, service: SiteService)
      returns (page: SettingsPage?, form: AttendanceSite?)
      modifies service
      ensures service.stored == old(service.stored)
      ensures page == null <==> role == Some("Student")
      ensures form == null <==> role == Some("Student")
      ensures role == Some("Student") ==> service.fetches == old(service.fetches)
      ensures role != Some("Student") ==> service.fetches == old(service.fetches) + 2
      ensures form != null ==> fresh(form) && form.Value() == service.stored
      ensures page != null ==> fresh(page) && page.Snap() == SnapshotOf(service.stored)
      ensures page != null ==>
                page.RadioValues() == Radios(service.stored.useAutoGrading,
                                             service.stored.autoGradeBySubtraction)
    {
      if role.Some? && role.value == "Student" {
        return null, null;
      }
      form := service.GetCurrent();
      var current := service.GetCurrent();
      page := new SettingsPage(current);
    }

    /** The form framework writes the user's radio choices into the page's models. */
    method BindRadios(choice: Radios)
      modifies this
      ensures RadioValues() == choice && Snap() == old(Snap())
    {
      useAutoGrading := choice.useAutoGrading;
      autoGradeBySubtraction := choice.autoGradeBySubtraction;
    }

    /**
     * One form submission: updates the site, decides the collaborator calls and refreshes the
     * snapshot. `saveSucceeded` is what the settings service answers when asked to save.
     */
    method Submit(site: AttendanceSite, saveSucceeded: bool) returns (actions: seq<Action>)
      requires SubmitDefined(site.Value(), RadioValues(), Snap(), saveSucceeded)
      modifies this, site
      ensures site.Value() == ApplyForm(old(site.Value()), old(RadioValues()), old(previousMaxGrade))
      ensures actions == Effects(site.Value(), old(Snap()), saveSucceeded)
      ensures Snap() == NextSnapshot(site.Value(), old(Snap()), saveSucceeded)
      ensures RadioValues() == old(RadioValues())
    {
      site.useAutoGrading := useAutoGrading;
      site.autoGradeBySubtraction := autoGradeBySubtraction;
      if site.maximumGrade.None? && previousMaxGrade.Some? {
        site.sendToGradebook := false;
        site.useAutoGrading := Some(false);
      }

      actions := [];
      if saveSucceeded {
        if site.sendToGradebook {
          if previousSendToGradebook {
            if site.gradebookItemName != previousName || site.maximumGrade != previousMaxGrade {
              actions := [Update];
            }
            previousName := site.gradebookItemName;
          } else {
            actions := [Create];
          }
        } else if previousSendToGradebook {
          actions := [Remove];
        }

        previousMaxGrade := site.maximumGrade;
        previousSendToGradebook := site.sendToGradebook;

        if site.useAutoGrading == Some(true) && site.maximumGrade.value > 0.0 {
          actions := actions + [Regrade];
        }
      }
    }
  }
}
