/**
 The serializer of inbound push-to-talk auto-play and the notes that claim it
 (Screens/Conversation1View.swift, `PTTAutoPlay`, `maybeAutoPlay`, `releaseAutoPlay`).
 A note's task suspends in its setup, and may resume after the row has gone.
 */
module AutoPlay {
  import opened Wrappers

  type Row = nat
  type NoteId = nat

  /** One row's view state; a row appears once. */
  datatype Note = Note(id: NoteId, mounted: bool, tried: bool, claimed: bool)

  datatype State = State(busy: Option<NoteId>, level: real, rows: map<Row, Note>)

  const Start := State(None, 0.0, map[])

  datatype Event =
    | Appears(row: Row, id: NoteId)
    | TaskResumes(row: Row, eligible: bool, recent: bool)
    | LevelChanges(row: Row, level: real)
    | Stops(row: Row)
    | Disappears(row: Row)

  /** The view observes its player and disappears only while it is mounted. */
  predicate Enabled(s: State, e: Event) {
    match e
    case Appears(row, _) => row !in s.rows
    case TaskResumes(row, _, _) => row in s.rows
    case LevelChanges(row, _) => row in s.rows && s.rows[row].mounted
    case Stops(row) => row in s.rows && s.rows[row].mounted
    case Disappears(row) => row in s.rows && s.rows[row].mounted
  }

  function Release(s: State, row: Row): (r: State)
    requires row in s.rows
  {
    var n := s.rows[row];
    if !n.claimed then s
    else
      var s' := if s.busy == Some(n.id) then s.(busy := None, level := 0.0) else s;
      s'.(rows := s.rows[row := n.(claimed := false)])
  }

  function Step(s: State, e: Event): (r: State)
    requires Enabled(s, e)
  {
    match e
    case Appears(row, id) => s.(rows := s.rows[row := Note(id, true, false, false)])
    case TaskResumes(row, eligible, recent) =>
      var n := s.rows[row];
      if n.tried || !eligible then s
      else if !recent || s.busy.Some? then s.(rows := s.rows[row := n.(tried := true)])
      else s.(busy := Some(n.id), rows := s.rows[row := n.(tried := true, claimed := true)])
    case LevelChanges(row, level) => if s.rows[row].claimed then s.(level := level) else s
    case Stops(row) => Release(s, row)
    case Disappears(row) => Release(s, row).(rows := Release(s, row).rows[row := s.rows[row].(mounted := false, claimed := false)])
  }

  ghost predicate Runs(s: State, events: seq<Event>)
    decreases |events|
  {
    events == [] || (Enabled(s, events[0]) && Runs(Step(s, events[0]), events[1..]))
  }

  ghost function Run(s: State, events: seq<Event>): State
    requires Runs(s, events)
    decreases |events|
  {
    if events == [] then s else Run(Step(s, events[0]), events[1..])
  }

  /** At most one row holds the claim, it is the busy one, and a free serializer is silent. */
  ghost predicate Inv(s: State) {
    && (forall r :: r in s.rows && s.rows[r].claimed ==> s.busy == Some(s.rows[r].id))
    && (forall r, q :: r in s.rows && q in s.rows && s.rows[r].claimed && s.rows[q].claimed ==> r == q)
    && (s.busy.Some? ==> exists r :: r in s.rows && s.rows[r].claimed)
    && (s.busy.None? ==> s.level == 0.0)
  }

  /** The holder of the claim, if any, is still on screen. */
  ghost predicate HolderMounted(s: State) {
    forall r :: r in s.rows && s.rows[r].claimed ==> s.rows[r].mounted
  }

  lemma ReleaseKeeps(s: State, row: Row)
    requires Inv(s) && row in s.rows
    ensures Inv(Release(s, row)) && row in Release(s, row).rows && !Release(s, row).rows[row].claimed
    ensures forall r :: r in s.rows && r != row ==> r in Release(s, row).rows && Release(s, row).rows[r] == s.rows[r]
  {
    if s.rows[row].claimed {
      var s' := Release(s, row);
      assert s'.busy == None;
    } else if s.busy.Some? {
      var r :| r in s.rows && s.rows[r].claimed;
      assert Release(s, row).rows[r].claimed;
    }
  }

  lemma UnmountKeeps(s: State, row: Row)
    requires Inv(s) && row in s.rows && !s.rows[row].claimed
    ensures Inv(s.(rows := s.rows[row := s.rows[row].(mounted := false)]))
  {
    if s.busy.Some? {
      var r :| r in s.rows && s.rows[r].claimed;
      assert s.rows[row := s.rows[row].(mounted := false)][r].claimed;
    }
  }

  lemma ResumeKeeps(s: State, row: Row, eligible: bool, recent: bool)
    requires Inv(s) && row in s.rows
    ensures Inv(Step(s, TaskResumes(row, eligible, recent)))
  {
    var s' := Step(s, TaskResumes(row, eligible, recent));
    if s.busy.Some? {
      var r :| r in s.rows && s.rows[r].claimed;
      assert r in s'.rows && s'.rows[r].claimed;
    } else if s'.busy.Some? {
      assert s'.rows[row].claimed;
    }
  }

  lemma StepKeeps(s: State, e: Event)
    requires Inv(s) && Enabled(s, e)
    ensures Inv(Step(s, e))
  {
    match e
    case Appears(row, id) =>
      if s.busy.Some? {
        var r :| r in s.rows && s.rows[r].claimed;
        assert Step(s, e).rows[r].claimed;
      }
    case TaskResumes(row, eligible, recent) => ResumeKeeps(s, row, eligible, recent);
    case LevelChanges(row, level) =>
    case Stops(row) => ReleaseKeeps(s, row);
    case Disappears(row) =>
      ReleaseKeeps(s, row);
      UnmountKeeps(Release(s, row), row);
      assert Release(s, row).rows[row].(mounted := false) == s.rows[row].(mounted := false, claimed := false);
  }

  lemma {:induction false} RunKeeps(s: State, events: seq<Event>)
    requires Inv(s) && Runs(s, events)
    ensures Inv(Run(s, events))
    decreases |events|
  {
    if events != [] {
      StepKeeps(s, events[0]);
      RunKeeps(Step(s, events[0]), events[1..]);
    }
  }

  /** Over every run: one claim at most, busy exactly when held, level zero when free. */
  lemma OneClaimAtMost(events: seq<Event>)
    requires Runs(Start, events)
    ensures var s := Run(Start, events);
      && (s.busy.Some? <==> exists r :: r in s.rows && s.rows[r].claimed)
      && (forall r, q :: r in s.rows && q in s.rows && s.rows[r].claimed && s.rows[q].claimed ==> r == q)
      && (s.busy.None? ==> s.level == 0.0)
  {
    RunKeeps(Start, events);
  }

  // ----- Claims taken by rows that are gone -----

  /** A task resumes after its row left the screen and still takes the claim. */
  predicate ClaimsLate(s: State, e: Event)
    requires Enabled(s, e)
  {
    e.TaskResumes? && e.eligible && e.recent && !s.rows[e.row].tried && !s.rows[e.row].mounted && s.busy.None?
  }

  ghost predicate SomeClaimLate(s: State, events: seq<Event>)
    requires Runs(s, events)
    decreases |events|
  {
    events != [] && (ClaimsLate(s, events[0]) || SomeClaimLate(Step(s, events[0]), events[1..]))
  }

  /** A claim held by a row that is gone: nothing can free it. */
  ghost predicate Stuck(s: State, row: Row) {
    row in s.rows && s.rows[row].claimed && !s.rows[row].mounted
  }

  lemma StuckStep(s: State, e: Event, row: Row)
    requires Inv(s) && Enabled(s, e) && Stuck(s, row)
    ensures Stuck(Step(s, e), row) && Step(s, e).busy == s.busy
  {
    if e.Stops? || e.Disappears? {
      assert e.row != row;
      assert !s.rows[e.row].claimed;
    }
  }

  lemma {:induction false} StuckForever(s: State, events: seq<Event>, row: Row)
    requires Inv(s) && Runs(s, events) && Stuck(s, row)
    ensures Stuck(Run(s, events), row) && Run(s, events).busy == s.busy
    decreases |events|
  {
    if events != [] {
      StepKeeps(s, events[0]);
      StuckStep(s, events[0], row);
      StuckForever(Step(s, events[0]), events[1..], row);
    }
  }

  lemma MountedStep(s: State, e: Event)
    requires Inv(s) && HolderMounted(s) && Enabled(s, e)
    ensures HolderMounted(Step(s, e)) <==> !ClaimsLate(s, e)
    ensures ClaimsLate(s, e) ==> Stuck(Step(s, e), e.row)
  {
    if e.Stops? || e.Disappears? {
      ReleaseKeeps(s, e.row);
    }
    if ClaimsLate(s, e) {
      assert Step(s, e).rows[e.row].claimed;
    }
  }

  lemma {:induction false} MountedExactlyFrom(s: State, events: seq<Event>)
    requires Inv(s) && HolderMounted(s) && Runs(s, events)
    ensures HolderMounted(Run(s, events)) <==> !SomeClaimLate(s, events)
    decreases |events|
  {
    if events != [] {
      StepKeeps(s, events[0]);
      MountedStep(s, events[0]);
      var s' := Step(s, events[0]);
      if ClaimsLate(s, events[0]) {
        StuckForever(s', events[1..], events[0].row);
      } else {
        MountedExactlyFrom(s', events[1..]);
      }
    }
  }

  /**
   The serializer is busy exactly for a note on screen if and only if no task ever took
   the claim after its row was gone; once one did, the serializer stays busy for good.
   */
  lemma BusyMeansOnScreenExactly(events: seq<Event>)
    requires Runs(Start, events)
    ensures HolderMounted(Run(Start, events)) <==> !SomeClaimLate(Start, events)
  {
    MountedExactlyFrom(Start, events);
  }

  /** A row disappears during its setup, its task then claims, and the serializer is held by nothing on screen. */
  lemma LateClaimSticks(row: Row, id: NoteId)
    ensures var events := [Appears(row, id), Disappears(row), TaskResumes(row, true, true)];
      && Runs(Start, events) && SomeClaimLate(Start, events)
      && Run(Start, events).busy == Some(id) && !HolderMounted(Run(Start, events))
  {
    var e1, e2, e3 := Appears(row, id), Disappears(row), TaskResumes(row, true, true);
    var s1 := State(None, 0.0, map[row := Note(id, true, false, false)]);
    var s2 := State(None, 0.0, map[row := Note(id, false, false, false)]);
    var s3 := State(Some(id), 0.0, map[row := Note(id, false, true, true)]);
    assert Step(Start, e1) == s1 && Step(s1, e2) == s2 && Step(s2, e3) == s3;
    assert [e1, e2, e3][1..] == [e2, e3] && [e2, e3][1..] == [e3] && [e3][1..] == [];
    assert Runs(s2, [e3]) && Run(s2, [e3]) == s3 && SomeClaimLate(s2, [e3]);
    assert Runs(s1, [e2, e3]) && Run(s1, [e2, e3]) == s3 && SomeClaimLate(s1, [e2, e3]);
    assert Stuck(s3, row);
  }

  // ----- Whose turn it is -----

  /** The row's task has resumed before with its note eligible. */
  ghost predicate HasTried(events: seq<Event>, row: Row) {
    exists i :: 0 <= i < |events| && events[i].TaskResumes? && events[i].row == row && events[i].eligible
  }

  lemma TriedStep(s: State, e: Event, row: Row)
    requires Enabled(s, e)
    ensures row in s.rows ==> row in Step(s, e).rows
    ensures row in Step(s, e).rows && Step(s, e).rows[row].tried <==>
      row in s.rows && (s.rows[row].tried || (e.TaskResumes? && e.row == row && e.eligible))
  {
  }

  lemma {:induction false} TriedExactly(s: State, events: seq<Event>, row: Row)
    requires Runs(s, events)
    requires row !in s.rows || !s.rows[row].tried
    ensures row in Run(s, events).rows ==>
      (Run(s, events).rows[row].tried <==> HasTried(events, row))
    decreases |events|
  {
    if events != [] {
      var s1, e, rest := Step(s, events[0]), events[0], events[1..];
      TriedStep(s, e, row);
      if e.TaskResumes? && e.row == row && e.eligible {
        TriedStays(s1, rest, row);
        assert events[0].TaskResumes? && HasTried(events, row);
      } else {
        TriedExactly(s1, rest, row);
        TriedRest(events, row);
      }
    }
  }

  lemma TriedRest(events: seq<Event>, row: Row)
    requires events != [] && !(events[0].TaskResumes? && events[0].row == row && events[0].eligible)
    ensures HasTried(events, row) <==> HasTried(events[1..], row)
  {
    if HasTried(events[1..], row) {
      var i :| 0 <= i < |events[1..]| && events[1..][i].TaskResumes? && events[1..][i].row == row && events[1..][i].eligible;
      assert events[i + 1].eligible;
    }
    if HasTried(events, row) {
      var i :| 0 <= i < |events| && events[i].TaskResumes? && events[i].row == row && events[i].eligible;
      assert events[1..][i - 1] == events[i];
    }
  }

  lemma {:induction false} TriedStays(s: State, events: seq<Event>, row: Row)
    requires Runs(s, events) && row in s.rows && s.rows[row].tried
    ensures row in Run(s, events).rows && Run(s, events).rows[row].tried
    decreases |events|
  {
    if events != [] {
      TriedStep(s, events[0], row);
      TriedStays(Step(s, events[0]), events[1..], row);
    }
  }

  /**
   Over every run: the serializer passes to a note exactly when its row's task resumes for
   the first time with the note eligible, the note is recent and nothing is playing; it is
   freed exactly when the row that holds it stops or disappears.
   */
  lemma TurnsExactly(events: seq<Event>, e: Event)
    requires Runs(Start, events) && Enabled(Run(Start, events), e)
    ensures var s, s' := Run(Start, events), Step(Run(Start, events), e);
      s'.busy ==
        if e.TaskResumes? && e.eligible && e.recent && !HasTried(events, e.row) && s.busy.None? then Some(s.rows[e.row].id)
        else if (e.Stops? || e.Disappears?) && s.rows[e.row].claimed then None
        else s.busy
    ensures var s, s' := Run(Start, events), Step(Run(Start, events), e);
      s'.level ==
        if e.LevelChanges? && s.rows[e.row].claimed then e.level
        else if (e.Stops? || e.Disappears?) && s.rows[e.row].claimed then 0.0
        else s.level
  {
    RunKeeps(Start, events);
    if e.TaskResumes? {
      TriedExactly(Start, events, e.row);
    }
  }

  // ----- The shared object -----

  class PTTAutoPlay {
    var busyID: Option<NoteId>
    var inboundLevel: real

    /** A free serializer is silent. */
    ghost predicate Valid()
      reads this
    {
      busyID.None? ==> inboundLevel == 0.0
    }

    constructor ()
      ensures Valid() && busyID == None
    {
      busyID, inboundLevel := None, 0.0;
    }

    method Claim(id: NoteId) returns (r: bool)
      requires Valid()
      modifies this
      ensures Valid() && inboundLevel == old(inboundLevel)
      ensures r == old(busyID).None?
      ensures busyID == if r then Some(id) else old(busyID)
    {
      if busyID.Some? {
        return false;
      }
      busyID := Some(id);
      return true;
    }

    method ReleaseClaim(id: NoteId)
      requires Valid()
      modifies this
      ensures Valid()
      ensures (busyID, inboundLevel) == if old(busyID) == Some(id) then (None, 0.0) else old((busyID, inboundLevel))
    {
      if busyID == Some(id) {
        busyID, inboundLevel := None, 0.0;
      }
    }
  }

  /** One row's bookkeeping; its methods are the steps of the protocol for that row. */
  class VoiceNote {
    const id: NoteId
    const autoPlay: PTTAutoPlay
    var mounted: bool
    var tried: bool
    var claimed: bool

    ghost function View(): Note
      reads this
    {
      Note(id, mounted, tried, claimed)
    }

    constructor (id_: NoteId, autoPlay_: PTTAutoPlay)
      ensures View() == Note(id_, true, false, false) && autoPlay == autoPlay_
    {
      id, autoPlay, mounted, tried, claimed := id_, autoPlay_, true, false, false;
    }

    /** This row and the serializer as a one-row state of the protocol. */
    ghost function Local(): State
      reads this, autoPlay
    {
      State(autoPlay.busyID, autoPlay.inboundLevel, map[0 := View()])
    }

    method MaybeAutoPlay(eligible: bool, recent: bool)
      requires autoPlay.Valid()
      modifies this, autoPlay
      ensures autoPlay.Valid() && Local() == Step(old(Local()), TaskResumes(0, eligible, recent))
    {
      if !eligible || tried {
        return;
      }
      tried := true;
      if !recent {
        return;
      }
      var got := autoPlay.Claim(id);
      if !got {
        return;
      }
      claimed := true;
    }

    method ReleaseAutoPlay()
      requires autoPlay.Valid()
      modifies this, autoPlay
      ensures autoPlay.Valid() && Local() == Release(old(Local()), 0)
    {
      if claimed {
        autoPlay.ReleaseClaim(id);
        claimed := false;
      }
    }
  }
}
