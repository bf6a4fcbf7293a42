/** The five-step estimate wizard of the public site, as a state machine:
    the step counter, the project type, the observed-issue checkboxes, the
    photo list and the submit flags. Text fields are not part of the
    state; they never influence any of the transitions. The submission
    only waits and then shows a confirmation: nothing is sent. */
module Wizard {

  import opened Wrappers
  import opened Seqs
  import opened JsMath

  const TotalSteps := 5

  datatype ProjectType = Residential | Commercial | Emergency

  /** The checkboxes of step 3, in display order. */
  const IssueOptions: seq<string> :=
    ["Fuites", "Bardeaux endommagés", "Ventilation insuffisante", "Mousse/Algues", "Gouttières", "Autre"]

  /** A file chosen in the upload field, known by its name. */
  type Photo = string

  datatype State = State(
    step: int,
    projectType: Option<ProjectType>,
    issues: seq<string>,
    photos: seq<Photo>,
    isSubmitting: bool,
    isComplete: bool)

  const Initial := State(1, None, [], [], false, false)

  // ---------------------------------------------------------------------
  // Steps

  /** `handleNext`. */
  function Next(s: State): (r: State)
    ensures r == s.(step := r.step)
    ensures s.step < TotalSteps ==> r.step == s.step + 1
    ensures s.step >= TotalSteps ==> r == s
  {
    if s.step < TotalSteps then s.(step := s.step + 1) else s
  }

  /** `handleBack`. */
  function Back(s: State): (r: State)
    ensures r == s.(step := r.step)
    ensures s.step > 1 ==> r.step == s.step - 1
    ensures s.step <= 1 ==> r == s
  {
    if s.step > 1 then s.(step := s.step - 1) else s
  }

  /** Both buttons keep the step within 1 to 5. */
  lemma StepStaysInRange(s: State)
    requires 1 <= s.step <= TotalSteps
    ensures 1 <= Next(s).step <= TotalSteps
    ensures 1 <= Back(s).step <= TotalSteps
  {
  }

  /** Back undoes Next, and Next undoes Back, away from the ends. */
  lemma BackUndoesNext(s: State)
    ensures 1 <= s.step < TotalSteps ==> Back(Next(s)) == s
    ensures 1 < s.step <= TotalSteps ==> Next(Back(s)) == s
  {
  }

  /** The percentage shown above the form. */
  function Progress(step: int): (percent: int)
    ensures step >= 0 ==> percent >= 0
  {
    Round(((step as real) / (TotalSteps as real)) * 100.0)
  }

  /** Each step is worth 20%. */
  lemma ProgressIsTwentyPerStep(step: int)
    requires 1 <= step <= TotalSteps
    ensures Progress(step) == 20 * step
    ensures Progress(step) in {20, 40, 60, 80, 100}
  {
    assert ((step as real) / 5.0) * 100.0 == (20 * step) as real;
    RoundOfInt(20 * step);
  }

  /** A project-type card on step 1: record the choice and move on. */
  function ChooseProjectType(s: State, t: ProjectType): (r: State)
    ensures r.projectType == Some(t)
    ensures s.step == 1 ==> r.step == 2
    ensures r.issues == s.issues && r.photos == s.photos
  {
    Next(s.(projectType := Some(t)))
  }

  // ---------------------------------------------------------------------
  // Issues

  /** The change handler of an issue checkbox: append when checked,
      otherwise keep the other issues. */
  function SetIssue(issues: seq<string>, issue: string, checked: bool): (r: seq<string>)
    ensures checked ==> |r| == |issues| + 1 && r[..|issues|] == issues && r[|issues|] == issue
    ensures !checked ==> issue !in r && (forall x :: x != issue ==> (x in r <==> x in issues))
    ensures !checked ==> |r| == |issues| - Count(issues, (i: string) => i == issue)
  {
    if checked then issues + [issue]
    else
      RemovedCount(issues, issue);
      Filter(issues, (i: string) => i != issue)
  }

  /** Every element is either an occurrence of `issue` or kept. */
  lemma {:induction false} RemovedCount(issues: seq<string>, issue: string)
    ensures |Filter(issues, (i: string) => i != issue)| + Count(issues, (i: string) => i == issue) == |issues|
    decreases |issues|
  {
    if |issues| > 0 {
      RemovedCount(issues[1..], issue);
    }
  }

  /** Unchecking keeps the remaining issues in their order: removing from
      a concatenation removes from each part. */
  lemma UncheckKeepsOrder(a: seq<string>, b: seq<string>, issue: string)
    ensures SetIssue(a + b, issue, false) == SetIssue(a, issue, false) + SetIssue(b, issue, false)
  {
    FilterAppend(a, b, (i: string) => i != issue);
  }

  /** A click on a checkbox: the box shows whether the issue is listed,
      and the click reports the opposite. */
  function ClickIssue(s: State, issue: string): (r: State)
    ensures r == s.(issues := r.issues)
    ensures issue in r.issues <==> issue !in s.issues
  {
    s.(issues := SetIssue(s.issues, issue, issue !in s.issues))
  }

  predicate NoDuplicates(s: seq<string>) {
    forall i, j :: 0 <= i < j < |s| ==> s[i] != s[j]
  }

  /** Removing elements never creates a duplicate. */
  lemma {:induction false} FilterKeepsNoDuplicates(s: seq<string>, p: string -> bool)
    requires NoDuplicates(s)
    ensures NoDuplicates(Filter(s, p))
    decreases |s|
  {
    if |s| > 0 {
      FilterKeepsNoDuplicates(s[1..], p);
      var rest := Filter(s[1..], p);
      assert s[0] !in s[1..];
      assert s[0] !in rest;
      if p(s[0]) {
        assert Filter(s, p) == [s[0]] + rest;
      }
    }
  }

  /** Clicking keeps every issue listed at most once. */
  lemma ClickKeepsNoDuplicates(s: State, issue: string)
    requires NoDuplicates(s.issues)
    ensures NoDuplicates(ClickIssue(s, issue).issues)
  {
    if issue in s.issues {
      FilterKeepsNoDuplicates(s.issues, (i: string) => i != issue);
    }
  }

  /** Checking a box and unchecking it again restores the list. */
  lemma ClickTwiceRestores(s: State, issue: string)
    requires issue !in s.issues
    ensures ClickIssue(ClickIssue(s, issue), issue) == s
  {
    UncheckKeepsOrder(s.issues, [issue], issue);
    NothingToRemove(s.issues, issue);
    assert SetIssue([issue], issue, false) == [];
  }

  /** Unchecking an issue that is not listed changes nothing. */
  lemma {:induction false} NothingToRemove(issues: seq<string>, issue: string)
    requires issue !in issues
    ensures SetIssue(issues, issue, false) == issues
    decreases |issues|
  {
    if |issues| > 0 {
      NothingToRemove(issues[1..], issue);
      assert [issues[0]] + issues[1..] == issues;
    }
  }

  // ---------------------------------------------------------------------
  // Photos

  /** `handlePhotoUpload`: the chosen files, if any, go after the photos
      already listed. There is no limit on their number. */
  function AddPhotos(photos: seq<Photo>, files: Option<seq<Photo>>): (r: seq<Photo>)
    ensures files.None? ==> r == photos
    ensures files.Some? ==> |r| == |photos| + |files.value| && r[..|photos|] == photos && r[|photos|..] == files.value
  {
    if files.Some? then photos + files.value else photos
  }

  /** `photos.filter((_, i) => i !== index)`, over the photos from position
      `from` on. */
  function DropPosition(photos: seq<Photo>, index: int, from: nat): (r: seq<Photo>)
    ensures |r| <= |photos|
    decreases |photos|
  {
    if |photos| == 0 then []
    else (if from == index then [] else [photos[0]]) + DropPosition(photos[1..], index, from + 1)
  }

  /** The remove button of the photo at `index`. */
  function RemovePhoto(photos: seq<Photo>, index: int): (r: seq<Photo>)
    ensures |r| <= |photos|
  {
    DropPosition(photos, index, 0)
  }

  /** A position outside the photos from `from` on deletes nothing. */
  lemma {:induction false} DropPositionOutside(photos: seq<Photo>, index: int, from: nat)
    requires !(from <= index < from + |photos|)
    ensures DropPosition(photos, index, from) == photos
    decreases |photos|
  {
    if |photos| > 0 {
      DropPositionOutside(photos[1..], index, from + 1);
      assert [photos[0]] + photos[1..] == photos;
    }
  }

  /** Filtering by position deletes exactly the element at that position
      and keeps the rest in order. */
  lemma {:induction false} DropPositionInside(photos: seq<Photo>, index: int, from: nat)
    requires from <= index < from + |photos|
    ensures DropPosition(photos, index, from) == photos[..index - from] + photos[index - from + 1..]
    decreases |photos|
  {
    var tail := photos[1..];
    if from == index {
      DropPositionOutside(tail, index, from + 1);
      assert photos[..0] + photos[1..] == tail;
    } else {
      DropPositionInside(tail, index, from + 1);
      assert photos[..index - from] == [photos[0]] + tail[..index - from - 1];
      assert photos[index - from + 1..] == tail[index - from..];
    }
  }

  lemma RemovePhotoSlices(photos: seq<Photo>, index: int)
    ensures 0 <= index < |photos| ==> RemovePhoto(photos, index) == photos[..index] + photos[index + 1..]
    ensures 0 <= index < |photos| ==> |RemovePhoto(photos, index)| == |photos| - 1
    ensures !(0 <= index < |photos|) ==> RemovePhoto(photos, index) == photos
  {
    if 0 <= index < |photos| {
      DropPositionInside(photos, index, 0);
    } else {
      DropPositionOutside(photos, index, 0);
    }
  }

  /** Removing the photos just uploaded, last first, restores the list. */
  lemma RemoveLastUndoesAdd(photos: seq<Photo>, file: Photo)
    ensures RemovePhoto(AddPhotos(photos, Some([file])), |photos|) == photos
  {
    RemovePhotoSlices(photos + [file], |photos|);
    assert (photos + [file])[..|photos|] == photos;
  }

  // ---------------------------------------------------------------------
  // Submission

  /** `handleSubmit` starting: the button is disabled while a submission
      is under way, so a second click does nothing. */
  function StartSubmit(s: State): (r: State)
    ensures r.isSubmitting
    ensures s.isSubmitting ==> r == s
    ensures r == s.(isSubmitting := true)
  {
    if s.isSubmitting then s else s.(isSubmitting := true)
  }

  /** The two-second wait of `handleSubmit` ending. */
  function FinishSubmit(s: State): (r: State)
    ensures s.isSubmitting ==> !r.isSubmitting && r.isComplete
    ensures !s.isSubmitting ==> r == s
  {
    if s.isSubmitting then s.(isSubmitting := false, isComplete := true) else s
  }

  // ---------------------------------------------------------------------
  // The whole form

  /** What the user can do, and the end of the submission wait. */
  datatype Event =
    | ChooseType(projectType: ProjectType)
    | NextClick
    | BackClick
    | IssueClick(issue: string)
    | Upload(files: Option<seq<Photo>>)
    | RemoveClick(index: int)
    | SubmitClick
    | WaitOver

  /** One event, where the control exists: the project cards on step 1,
      "continue" on steps 2 to 4, "back" on steps 2 to 5, the checkboxes
      on step 3, the photo controls on step 4, submit on step 5. Once the
      confirmation is shown none of them is left. */
  function Apply(s: State, e: Event): (r: State)
  {
    if s.isComplete then s
    else
      match e
      case ChooseType(t) => if s.step == 1 then ChooseProjectType(s, t) else s
      case NextClick => if 2 <= s.step <= 4 then Next(s) else s
      case BackClick => if 2 <= s.step <= 5 then Back(s) else s
      case IssueClick(issue) => if s.step == 3 && issue in IssueOptions then ClickIssue(s, issue) else s
      case Upload(files) => if s.step == 4 then s.(photos := AddPhotos(s.photos, files)) else s
      case RemoveClick(index) => if s.step == 4 then s.(photos := RemovePhoto(s.photos, index)) else s
      case SubmitClick => if s.step == 5 then StartSubmit(s) else s
      case WaitOver => FinishSubmit(s)
  }

  function Replay(s: State, events: seq<Event>): State
    decreases |events|
  {
    if |events| == 0 then s else Replay(Apply(s, events[0]), events[1..])
  }

  /** What holds in every state the form can reach: the step is in range,
      the listed issues are distinct checkbox labels, and a completed form
      is no longer submitting. */
  predicate Valid(s: State) {
    1 <= s.step <= TotalSteps
    && NoDuplicates(s.issues)
    && (forall k :: 0 <= k < |s.issues| ==> s.issues[k] in IssueOptions)
    && !(s.isComplete && s.isSubmitting)
  }

  lemma InitialValid()
    ensures Valid(Initial)
  {
  }

  lemma ApplyKeepsValid(s: State, e: Event)
    requires Valid(s)
    ensures Valid(Apply(s, e))
  {
    if !s.isComplete && e.IssueClick? && s.step == 3 && e.issue in IssueOptions {
      var r := ClickIssue(s, e.issue);
      ClickKeepsNoDuplicates(s, e.issue);
      forall k | 0 <= k < |r.issues|
        ensures r.issues[k] in IssueOptions
      {
        var x := r.issues[k];
        assert x in r.issues;
        if x != e.issue {
          assert x in s.issues;
        }
      }
    }
  }

  /** Any sequence of events from a valid state ends in a valid state. */
  lemma {:induction false} ReplayKeepsValid(s: State, events: seq<Event>)
    requires Valid(s)
    ensures Valid(Replay(s, events))
    decreases |events|
  {
    if |events| > 0 {
      ApplyKeepsValid(s, events[0]);
      ReplayKeepsValid(Apply(s, events[0]), events[1..]);
    }
  }

  /** A submission started on step 5 and then left to finish ends on the
      confirmation, whatever the user did with "back" meanwhile. */
  lemma SubmitThenWaitCompletes(s: State, moves: nat)
    requires Valid(s) && s.step == 5 && !s.isComplete
    ensures var started := Apply(s, SubmitClick);
            started.isSubmitting
            && Apply(Replay(started, seq(moves, _ => BackClick)), WaitOver).isComplete
  {
    var started := Apply(s, SubmitClick);
    BacksKeepSubmitting(started, moves);
  }

  /** "Back" leaves the submission flags alone. */
  lemma {:induction false} BacksKeepSubmitting(s: State, moves: nat)
    requires s.isSubmitting && !s.isComplete
    ensures Replay(s, seq(moves, _ => BackClick)).isSubmitting
    ensures !Replay(s, seq(moves, _ => BackClick)).isComplete
    decreases moves
  {
    if moves > 0 {
      var events := seq(moves, _ => BackClick);
      assert events[1..] == seq(moves - 1, _ => BackClick);
      BacksKeepSubmitting(Apply(s, BackClick), moves - 1);
    }
  }
}
