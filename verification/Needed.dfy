/** None of the conditions can be dropped: the results over runs hold when all of them are asked for, and
    fail, for a run of the code as it is, when any one of them is not. */
module Needed {
  import opened Domain
  import opened Store
  import opened Protocol
  import opened ProtocolSafety
  import opened ProtocolPublished
  import opened ProtocolCompleted
  import opened ProtocolOrphans
  import opened ProtocolUploads
  import opened Runs
  import opened Witness

  /** Some content has both thumbnails. */
  ghost predicate CanThumbnail(c: Config) {
    exists content :: Thumbnailable(c, content)
  }

  lemma SomeUpload(c: Config) returns (input: UploadInput)
    requires CanThumbnail(c)
    ensures Acceptable("a", input) && Thumbnailable(c, input.content)
  {
    var content :| Thumbnailable(c, content);
    input := UploadInput("u", content, "image/png");
  }

  // Completed is final

  ghost predicate AllRespect(apart: bool, honest: bool, states: seq<State>, steps: seq<Step>) {
    && |states| > |steps|
    && forall j {:trigger steps[j]} :: 0 <= j < |steps| ==> Respects(apart, honest, states[j], steps[j])
  }

  /** No step of a run takes an avatar out of completed. */
  ghost predicate CompletedStays(states: seq<State>) {
    forall i, id :: 0 <= i < |states| - 1 && IsCompleted(states[i].db.avatars, id) ==>
      IsCompleted(states[i + 1].db.avatars, id)
  }

  /** No run does that which keeps to the conditions asked for. */
  ghost predicate CompletedIsFinal(c: Config, apart: bool, honest: bool) {
    forall states: seq<State>, steps: seq<Step> ::
      IsRun(c, states, steps) && AllRespect(apart, honest, states, steps) ==> CompletedStays(states)
  }

  lemma SecondRunnerNotFinal(c: Config, honest: bool, input: UploadInput)
    requires c.broker && Acceptable("a", input) && Thumbnailable(c, input.content)
    ensures !CompletedIsFinal(c, false, honest)
  {
    hide CompletedIsFinal, Acceptable, Thumbnailable, UndoesCompleted, OriginalKeyOf;
    SecondRunnerUndoesCompleted(c, "a", input, 0);
    var at: State, next: State :|
      && at.procs == map[0 := UhGet("a")] && next.procs == map[1 := UhRead("a", OriginalKeyOf("a", input))]
      && UndoesCompleted(c, [Fault(at, DeliverUpload(1, "a")), Fault(next, Call(1, Lost))], Call(1, Fine));
    NotFinal(c, false, honest, [Fault(at, DeliverUpload(1, "a")), Fault(next, Call(1, Lost))], Call(1, Fine));
  }

  lemma UntruePublishNotFinal(c: Config, apart: bool, input: UploadInput)
    requires c.broker && Acceptable("a", input) && Thumbnailable(c, input.content)
    ensures !CompletedIsFinal(c, apart, false)
  {
    hide CompletedIsFinal, Acceptable, Thumbnailable, UndoesCompleted;
    UntruePublishUndoesCompleted(c, "a", input, 0);
    var at: State :|
      at.procs == map[1 := UpPublish("a")] && UndoesCompleted(c, [Fault(at, Call(1, Applied))], Call(1, Fine));
    NotFinal(c, apart, false, [Fault(at, Call(1, Applied))], Call(1, Fine));
  }

  /** With any number of runners, stores that may fail in any way, lost acknowledgements, repeated
      deliveries and crashes: of the two conditions, neither can be dropped. */
  lemma CompletedNeedsBoth(c: Config, apart: bool, honest: bool)
    requires c.broker && CanThumbnail(c)
    ensures CompletedIsFinal(c, apart, honest) <==> apart && honest
  {
    var input := SomeUpload(c);
    if !apart {
      hide CompletedIsFinal, Acceptable, Thumbnailable;
      SecondRunnerNotFinal(c, honest, input);
    } else if !honest {
      hide CompletedIsFinal, Acceptable, Thumbnailable;
      UntruePublishNotFinal(c, apart, input);
    } else {
      hide IsRun, AllRespect, CompletedStays, Acceptable, Thumbnailable;
      forall states: seq<State>, steps: seq<Step> | IsRun(c, states, steps) && AllRespect(true, true, states, steps)
        ensures CompletedStays(states)
      {
        AllowedKeepsCompleted(c, states, steps);
      }
    }
  }

  lemma AllowedKeepsCompleted(c: Config, states: seq<State>, steps: seq<Step>)
    requires IsRun(c, states, steps) && AllRespect(true, true, states, steps)
    ensures CompletedStays(states)
  {
    hide IsRun, Respects, IsCompleted;
    forall i, id | 0 <= i < |states| - 1 && IsCompleted(states[i].db.avatars, id)
      ensures IsCompleted(states[i + 1].db.avatars, id)
    {
      RunLength(c, states, steps);
      CompletedIsAbsorbing(c, states, steps, i, id);
    }
  }

  lemma RunLength(c: Config, states: seq<State>, steps: seq<Step>)
    requires IsRun(c, states, steps)
    ensures |states| == |steps| + 1
  {
  }

  /** A run whose faults the conditions allow is one they allow. */
  lemma NotFinal(c: Config, apart: bool, honest: bool, faults: seq<Fault>, step: Step)
    requires UndoesCompleted(c, faults, step)
    requires forall f :: f in faults ==> Respects(apart, honest, f.at, f.step)
    ensures !CompletedIsFinal(c, apart, honest)
  {
    hide Reached, Respects;
    var s, id :|
      && Reached(c, s, faults) && Enabled(s, step) && step.Advance? && step.choice.outcome.Fine?
      && IsCompleted(s.db.avatars, id) && !IsCompleted(Do(c, s, step).db.avatars, id);
    var states, steps := RunOf(c, s, faults);
    hide Do, Enabled, IsCompleted;
    Extended(c, states, steps, step);
    hide IsRun;
    FaultsRespect(apart, honest, states, steps, step, Do(c, s, step));
    var states', i := states + [Do(c, s, step)], |steps|;
    assert states'[i] == s && states'[i + 1] == Do(c, s, step);
  }

  lemma FaultsRespect(apart: bool, honest: bool, states: seq<State>, steps: seq<Step>, step: Step, last: State)
    requires |states| == |steps| + 1 && step.Advance? && step.choice.outcome.Fine?
    requires forall f :: f in Faults(states, steps) ==> Respects(apart, honest, f.at, f.step)
    ensures AllRespect(apart, honest, states + [last], steps + [step])
  {
    var states', steps' := states + [last], steps + [step];
    forall j {:trigger steps'[j]} | 0 <= j < |steps'|
      ensures Respects(apart, honest, states'[j], steps'[j])
    {
      assert states'[j] == states[j];
      if j < |steps| {
        assert steps'[j] == steps[j];
        FaultsComplete(states, steps, j);
        assert Fault(states[j], steps[j]) in Faults(states, steps) ==> Respects(apart, honest, states[j], steps[j]);
      }
    }
  }

  // No upload is lost

  /** Every run that keeps to the condition, if asked to, and has handled its upload events, has completed
      every live avatar whose event was published. */
  ghost predicate LosesNoUpload(c: Config, honest: bool) {
    forall states: seq<State>, steps: seq<Step> ::
      IsRun(c, states, steps) && AllRespect(false, honest, states, steps) && Handled(states[|steps|]) ==>
      !Unfinished(states[|steps|].db)
  }

  lemma HonestLosesNoUpload(c: Config)
    ensures LosesNoUpload(c, true)
  {
    forall states: seq<State>, steps: seq<Step> |
        IsRun(c, states, steps) && AllRespect(false, true, states, steps) && Handled(states[|steps|])
      ensures !Unfinished(states[|steps|].db)
    {
      hide IsRun, Respects, Handled, IsCompleted, LiveIn;
      if Unfinished(states[|steps|].db) {
        var db := states[|steps|].db;
        var id :| id in db.history.published && LiveIn(db.avatars, id) && !IsCompleted(db.avatars, id);
        NoUploadLost(c, states, steps, |steps|, id);
      }
    }
  }

  lemma UntruePublishLoses(c: Config, input: UploadInput)
    requires c.broker && Acceptable("a", input) && Thumbnailable(c, input.content)
    ensures !LosesNoUpload(c, false)
  {
    hide Acceptable, Thumbnailable, LosesUpload;
    UntruePublishLosesUpload(c, "a", input, 0);
    var at: State :| at.procs == map[1 := UpPublish("a")] && LosesUpload(c, [Fault(at, Call(1, Applied))]);
    UploadIsLost(c, [Fault(at, Call(1, Applied))]);
  }

  lemma UploadIsLost(c: Config, faults: seq<Fault>)
    requires LosesUpload(c, faults)
    ensures !LosesNoUpload(c, false)
  {
    hide Handled, Unfinished, Reached, Respects, AllRespect, IsRun;
    var s :| Reached(c, s, faults) && Handled(s) && Unfinished(s.db);
    var states, steps := RunOf(c, s, faults);
    NothingAsked(states, steps);
  }

  lemma NothingAsked(states: seq<State>, steps: seq<Step>)
    requires |states| == |steps| + 1
    ensures AllRespect(false, false, states, steps)
  {
  }

  /** With any number of runners and handlers, failing stores and crashes: the condition cannot be dropped. */
  lemma NoUploadLostNeedsHonest(c: Config, honest: bool)
    requires c.broker && CanThumbnail(c)
    ensures LosesNoUpload(c, honest) <==> honest
  {
    var input := SomeUpload(c);
    hide LosesNoUpload, Acceptable, Thumbnailable;
    if honest {
      HonestLosesNoUpload(c);
    } else {
      UntruePublishLoses(c, input);
    }
  }

  // No orphans

  ghost predicate AllMeet(c: Config, k: Conditions, states: seq<State>, steps: seq<Step>) {
    |states| > |steps| && forall j {:trigger steps[j]} :: 0 <= j < |steps| ==> Meets(c, k, states[j], steps[j])
  }

  /** Every run that keeps to the conditions asked for, and has drained, has left no orphan. */
  ghost predicate LeavesNoOrphan(c: Config, k: Conditions) {
    forall states: seq<State>, steps: seq<Step> ::
      IsRun(c, states, steps) && AllMeet(c, k, states, steps) && Drained(states[|steps|]) ==>
      !Orphaned(states[|steps|].db)
  }

  lemma StrictLeavesNoOrphan(c: Config)
    requires c.broker
    ensures LeavesNoOrphan(c, STRICT)
  {
    forall states: seq<State>, steps: seq<Step> |
        IsRun(c, states, steps) && AllMeet(c, STRICT, states, steps) && Drained(states[|steps|])
      ensures !Orphaned(states[|steps|].db)
    {
      hide IsRun, Meets, Drained, Orphaned;
      NoOrphansAtQuiescence(c, states, steps, |steps|);
    }
  }

  lemma SecondRunnerOrphans(c: Config, k: Conditions, input: UploadInput)
    requires c.broker && Acceptable("a", input) && Thumbnailable(c, input.content) && !k.apart
    ensures !LeavesNoOrphan(c, k)
  {
    hide Acceptable, Thumbnailable, LeavesOrphan, LeavesNoOrphan, Writing, Micro;
    SecondRunnerLeavesOrphan(c, "a", input, 0, 1);
    var at: State :|
      && at.procs == map[0 := Writing(c, "a", input.content)]
      && LeavesOrphan(c, [Fault(at, DeliverDelete(1, "a"))]);
    Orphans(c, k, [Fault(at, DeliverDelete(1, "a"))]);
  }

  lemma LostLookupOrphans(c: Config, k: Conditions, input: UploadInput)
    requires c.broker && Acceptable("a", input) && !k.found
    ensures !LeavesNoOrphan(c, k)
  {
    hide Acceptable, LeavesOrphan, LeavesNoOrphan, Micro;
    LostLookupLeavesOrphan(c, "a", input, 0, 1);
    var at: State :| at.procs == map[1 := DhGet("a")] && LeavesOrphan(c, [Fault(at, Call(1, Lost))]);
    Orphans(c, k, [Fault(at, Call(1, Lost))]);
  }

  lemma LostPublishOrphans(c: Config, k: Conditions, input: UploadInput)
    requires c.broker && Acceptable("a", input) && !k.announced
    ensures !LeavesNoOrphan(c, k)
  {
    hide Acceptable, LeavesOrphan, LeavesNoOrphan, Micro;
    LostPublishLeavesOrphan(c, "a", input, 0, 1);
    var at: State :| at.procs == map[1 := DelPublish("a")] && LeavesOrphan(c, [Fault(at, Call(1, Lost))]);
    Orphans(c, k, [Fault(at, Call(1, Lost))]);
  }

  lemma HalfStoredOrphans(c: Config, k: Conditions, input: UploadInput)
    requires c.broker && Acceptable("a", input) && Thumbnailable(c, input.content) && !k.listed
    ensures !LeavesNoOrphan(c, k)
  {
    hide Acceptable, Thumbnailable, LeavesOrphan, LeavesNoOrphan, Micro;
    HalfStoredLeavesOrphan(c, "a", input, 0, 1);
    var at: State, next: State :|
      && (exists t300 :: at.procs == map[0 := UhPut300("a", t300)])
      && next.procs == map[0 := UhFail("a", Dependency)]
      && LeavesOrphan(c, [Fault(at, Call(0, Lost)), Fault(next, Call(0, Fine))]);
    Orphans(c, k, [Fault(at, Call(0, Lost)), Fault(next, Call(0, Fine))]);
  }

  /** With any number of runners, repeated deliveries, and any failing call or crash that the conditions
      leave open: of the four conditions, none can be dropped. */
  lemma NoOrphansNeedsAll(c: Config, k: Conditions)
    requires c.broker && CanThumbnail(c)
    ensures LeavesNoOrphan(c, k) <==> k == STRICT
  {
    var input := SomeUpload(c);
    hide LeavesNoOrphan, Acceptable, Thumbnailable;
    if !k.apart {
      SecondRunnerOrphans(c, k, input);
    } else if !k.found {
      LostLookupOrphans(c, k, input);
    } else if !k.announced {
      LostPublishOrphans(c, k, input);
    } else if !k.listed {
      HalfStoredOrphans(c, k, input);
    } else {
      StrictLeavesNoOrphan(c);
    }
  }

  lemma FaultFreeMeets(c: Config, k: Conditions, s: State, step: Step)
    requires FaultFree(s, step)
    ensures Meets(c, k, s, step)
  {
    hide Micro, AllListed;
  }

  lemma Orphans(c: Config, k: Conditions, faults: seq<Fault>)
    requires LeavesOrphan(c, faults) && forall f :: f in faults ==> Meets(c, k, f.at, f.step)
    ensures !LeavesNoOrphan(c, k)
  {
    hide Drained, Orphaned, Meets, FaultFree, Reached;
    var s :| Reached(c, s, faults) && Drained(s) && Orphaned(s.db);
    var states, steps := RunOf(c, s, faults);
    hide IsRun;
    forall j {:trigger steps[j]} | 0 <= j < |steps|
      ensures Meets(c, k, states[j], steps[j])
    {
      FaultsComplete(states, steps, j);
      if FaultFree(states[j], steps[j]) {
        FaultFreeMeets(c, k, states[j], steps[j]);
      } else {
        assert Meets(c, k, Fault(states[j], steps[j]).at, Fault(states[j], steps[j]).step);
      }
    }
    assert AllMeet(c, k, states, steps);
  }

  // A failed publish leaves the avatar failed

  ghost predicate AllMark(k: MarkConditions, states: seq<State>, steps: seq<Step>) {
    |states| > |steps| && forall j {:trigger steps[j]} :: 0 <= j < |steps| ==> MeetsMark(k, states[j], steps[j])
  }

  /** Where the publish of an upload has reported an error, and the upload is over, the avatar is failed. */
  ghost predicate Shows(states: seq<State>, steps: seq<Step>) {
    forall i, j, id | 0 <= i < |steps| && i < j < |states| ::
      PublishFails(states[i], steps[i], id) && UploadOver(states[j], id) ==> IsFailed(states[j].db.avatars, id)
  }

  ghost predicate FailureShows(c: Config, k: MarkConditions) {
    forall states: seq<State>, steps: seq<Step> ::
      IsRun(c, states, steps) && AllMark(k, states, steps) ==> Shows(states, steps)
  }

  lemma AllMarkShows(c: Config)
    ensures FailureShows(c, ALL_MARK)
  {
    forall states: seq<State>, steps: seq<Step> | IsRun(c, states, steps) && AllMark(ALL_MARK, states, steps)
      ensures Shows(states, steps)
    {
      RunLength(c, states, steps);
      hide IsRun, MeetsMark, PublishFails, UploadOver, IsFailed;
      forall i, j, id | 0 <= i < |steps| && i < j < |states| &&
          PublishFails(states[i], steps[i], id) && UploadOver(states[j], id)
        ensures IsFailed(states[j].db.avatars, id)
      {
        FailedPublishShows(c, states, steps, i, j, id);
      }
    }
  }

  lemma FaultFreeMarks(k: MarkConditions, s: State, step: Step)
    requires FaultFree(s, step)
    ensures MeetsMark(k, s, step)
  {
  }

  lemma FaultsMark(k: MarkConditions, states: seq<State>, steps: seq<Step>)
    requires |states| == |steps| + 1
    requires forall f :: f in Faults(states, steps) ==> MeetsMark(k, f.at, f.step)
    ensures AllMark(k, states, steps)
  {
    hide FaultFree, MeetsMark;
    forall j {:trigger steps[j]} | 0 <= j < |steps|
      ensures MeetsMark(k, states[j], steps[j])
    {
      FaultsComplete(states, steps, j);
      if FaultFree(states[j], steps[j]) {
        FaultFreeMarks(k, states[j], steps[j]);
      } else {
        assert MeetsMark(k, Fault(states[j], steps[j]).at, Fault(states[j], steps[j]).step);
      }
    }
  }

  /** A run that the conditions allow, the first of its faults a publish that reports an error. */
  lemma Hidden(c: Config, k: MarkConditions, faults: seq<Fault>, id: Id, status: Status)
    requires EndsAs(c, faults, id, status) && status != Failed
    requires faults != [] && PublishFails(faults[0].at, faults[0].step, id)
    requires forall f :: f in faults ==> MeetsMark(k, f.at, f.step)
    ensures !FailureShows(c, k)
  {
    hide MeetsMark, PublishFails, IsRun, AllMark, Faults, Reached;
    var s :| Reached(c, s, faults) && s.procs == map[] && id in s.db.avatars && s.db.avatars[id].status == status;
    var states, steps := RunOf(c, s, faults);
    FaultsMark(k, states, steps);
    var i := FaultHappens(states, steps, faults[0]);
    assert PublishFails(states[i], steps[i], id) && UploadOver(states[|steps|], id);
    assert !Shows(states, steps);
  }

  lemma UntruePublishHides(c: Config, k: MarkConditions, input: UploadInput)
    requires c.broker && Acceptable("a", input) && Thumbnailable(c, input.content) && !k.honest
    ensures !FailureShows(c, k)
  {
    hide Acceptable, Thumbnailable, FailureShows, EndsAs;
    UntruePublishIsCompleted(c, "a", input, 0);
    var at: State :|
      at.procs == map[1 := UpPublish("a")] && EndsAs(c, [Fault(at, Call(1, Applied))], "a", Completed);
    Hidden(c, k, [Fault(at, Call(1, Applied))], "a", Completed);
  }

  lemma LostMarkHides(c: Config, k: MarkConditions, input: UploadInput)
    requires c.broker && Acceptable("a", input) && !k.marked
    ensures !FailureShows(c, k)
  {
    hide Acceptable, FailureShows, EndsAs;
    LostMarkStaysProcessing(c, "a", input, 0);
    var at: State, next: State :|
      && at.procs == map[1 := UpPublish("a")] && next.procs == map[1 := UpMark("a")]
      && EndsAs(c, [Fault(at, Call(1, Lost)), Fault(next, Call(1, Lost))], "a", Processing);
    Hidden(c, k, [Fault(at, Call(1, Lost)), Fault(next, Call(1, Lost))], "a", Processing);
  }

  lemma CrashHides(c: Config, k: MarkConditions, input: UploadInput)
    requires c.broker && Acceptable("a", input) && !k.alive
    ensures !FailureShows(c, k)
  {
    hide Acceptable, FailureShows, EndsAs;
    CrashStaysProcessing(c, "a", input, 0);
    var at: State, next: State :|
      && at.procs == map[1 := UpPublish("a")] && next.procs == map[1 := UpMark("a")]
      && EndsAs(c, [Fault(at, Call(1, Lost)), Fault(next, Crash(1))], "a", Processing);
    Hidden(c, k, [Fault(at, Call(1, Lost)), Fault(next, Crash(1))], "a", Processing);
  }

  /** With any number of runners, repeated deliveries, failing stores and crashes elsewhere: of the three
      conditions, none can be dropped. */
  lemma FailedPublishNeedsAll(c: Config, k: MarkConditions)
    requires c.broker && CanThumbnail(c)
    ensures FailureShows(c, k) <==> k == ALL_MARK
  {
    var input := SomeUpload(c);
    hide FailureShows, Acceptable, Thumbnailable;
    if !k.honest {
      UntruePublishHides(c, k, input);
    } else if !k.marked {
      LostMarkHides(c, k, input);
    } else if !k.alive {
      CrashHides(c, k, input);
    } else {
      AllMarkShows(c);
    }
  }
}
