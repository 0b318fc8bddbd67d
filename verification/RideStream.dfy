/** The server-sent-event stream of a rider's active rides: snapshots are read and written by an
    asynchronous `push`, which a flag keeps from running twice at once.

    The database is a version number that commits raise; a ride event announces the version
    current when it is emitted. A step is one run of code between two awaits.
  */
module RideStream {
  import opened Options

  /** Where a running push is suspended: at the session check, at the query before or after the
      database has executed it. */
  datatype Push = Checking | Reading | Holding(version: nat)

  datatype Outcome = Wrote | Failed | Refused | Discarded

  datatype Stream = Stream(
    closed: bool, sending: bool, dirty: bool,
    pushes: seq<Push>,          // pushes suspended at an await
    ended: bool,                // the response was ended by the server
    written: seq<nat>,          // versions of the snapshots written
    afterEnd: nat,              // snapshots written to a response already ended
    db: nat, announced: nat,
    triggers: nat, queries: nat,  // calls of push from outside, queries executed
    outcome: Option<Outcome>)   // of the push that finished last

  datatype Check = Valid | Invalid | Throws

  datatype Step =
    | Commit
    | RideEvent
    | Heartbeat
    | Checked(i: nat, result: Check)
    | Queried(i: nat)
    | Answered(i: nat, ok: bool, drained: bool)
    | Close

  predicate Allowed(s: Stream, step: Step) {
    match step
    case Checked(i, _) => i < |s.pushes| && s.pushes[i].Checking?
    case Queried(i) => i < |s.pushes| && s.pushes[i].Reading?
    case Answered(i, _, _) => i < |s.pushes| && s.pushes[i].Holding?
    case _ => true
  }

  /** The code of push up to its first await. */
  function Entered(s: Stream): Stream {
    if s.closed then s
    else if s.sending then s.(dirty := true)
    else s.(sending := true, pushes := s.pushes + [Checking])
  }

  /** The `finally` block. */
  function Finished(s: Stream, i: nat, outcome: Outcome): Stream
    requires i < |s.pushes|
  {
    var done := s.(sending := false, pushes := s.pushes[..i] + s.pushes[i + 1..], outcome := Some(outcome));
    if done.dirty && !done.closed then Entered(done.(dirty := false)) else done
  }

  function Triggered(s: Stream): Stream {
    Entered(s.(triggers := s.triggers + 1))
  }

  function Written(s: Stream, version: nat): Stream {
    s.(written := s.written + [version], afterEnd := s.afterEnd + if s.ended then 1 else 0)
  }

  function AfterAnswer(s: Stream, i: nat, ok: bool, drained: bool): Stream
    requires i < |s.pushes| && s.pushes[i].Holding?
  {
    if !ok then Finished(s, i, Failed)
    else if s.closed then Finished(s, i, Discarded)
    else
      var sent := Written(s, s.pushes[i].version);
      Finished(sent.(ended := s.ended || !drained), i, Wrote)
  }

  function Next(s: Stream, step: Step): Stream
    requires Allowed(s, step)
  {
    match step
    case Commit => s.(db := s.db + 1)
    case RideEvent => Triggered(s.(announced := s.db))
    case Heartbeat => Triggered(s)
    case Checked(i, result) =>
      if result.Throws? then Finished(s, i, Failed)
      else if result.Invalid? then Finished(s.(ended := true), i, Refused)
      else s.(pushes := s.pushes[i := Reading])
    case Queried(i) => s.(pushes := s.pushes[i := Holding(s.db)], queries := s.queries + 1)
    case Answered(i, ok, drained) => AfterAnswer(s, i, ok, drained)
    case Close => s.(closed := true)
  }

  function Opened(db: nat): Stream {
    Triggered(Stream(false, false, false, [], false, [], 0, db, db, 0, 0, None))
  }

  predicate Legal(db: nat, steps: seq<Step>) {
    steps == [] || (Legal(db, steps[..|steps| - 1]) && Allowed(Run(db, steps[..|steps| - 1]), steps[|steps| - 1]))
  }

  function Run(db: nat, steps: seq<Step>): Stream {
    if steps == [] then Opened(db)
    else
      var before := Run(db, steps[..|steps| - 1]);
      if Allowed(before, steps[|steps| - 1]) then Next(before, steps[|steps| - 1]) else before
  }

  // ---------- the closure, as the server runs it ----------

  /** The variables of one stream's closure and its response. */
  class Connection {
    var closed: bool
    var sending: bool
    var dirty: bool
    var pushes: seq<Push>
    var ended: bool
    var written: seq<nat>
    var afterEnd: nat
    var db: nat
    var announced: nat
    var triggers: nat
    var queries: nat
    var outcome: Option<Outcome>

    function View(): Stream
      reads this
    {
      Stream(closed, sending, dirty, pushes, ended, written, afterEnd, db, announced, triggers, queries, outcome)
    }

    constructor (version: nat)
      ensures View() == Opened(version)
    {
      closed, sending, dirty, ended := false, true, false, false;
      pushes, written, afterEnd := [Checking], [], 0;
      db, announced, triggers, queries, outcome := version, version, 1, 0, None;
    }

    method Enter()
      modifies this
      ensures View() == Entered(old(View()))
    {
      if closed {
        return;
      }
      if sending {
        dirty := true;
        return;
      }
      sending := true;
      pushes := pushes + [Checking];
    }

    method Finally(i: nat, result: Outcome)
      requires i < |pushes|
      modifies this
      ensures View() == Finished(old(View()), i, result)
    {
      outcome := Some(result);
      pushes := pushes[..i] + pushes[i + 1..];
      sending := false;
      if dirty && !closed {
        dirty := false;
        Enter();
      }
    }

    method OnRideEvent()
      modifies this
      ensures View() == Next(old(View()), RideEvent)
    {
      announced := db;
      triggers := triggers + 1;
      Enter();
    }

    method OnHeartbeat()
      modifies this
      ensures View() == Next(old(View()), Heartbeat)
    {
      triggers := triggers + 1;
      Enter();
    }

    method OnChecked(i: nat, result: Check)
      requires i < |pushes| && pushes[i].Checking?
      modifies this
      ensures View() == Next(old(View()), Checked(i, result))
    {
      match result
      case Throws =>
        Finally(i, Failed);
      case Invalid =>
        ended := true;
        Finally(i, Refused);
      case Valid =>
        pushes := pushes[i := Reading];
    }

    method OnAnswered(i: nat, ok: bool, drained: bool)
      requires i < |pushes| && pushes[i].Holding?
      modifies this
      ensures View() == Next(old(View()), Answered(i, ok, drained))
    {
      if !ok {
        Finally(i, Failed);
        return;
      }
      if closed {
        Finally(i, Discarded);
        return;
      }
      written, afterEnd := written + [pushes[i].version], afterEnd + (if ended then 1 else 0);
      if !drained {
        ended := true;
      }
      Finally(i, Wrote);
    }

    method Cleanup()
      modifies this
      ensures View() == Next(old(View()), Close)
    {
      if closed {
        return;
      }
      closed := true;
    }
  }

  // ---------- what every run keeps ----------

  function Last(written: seq<nat>): int { if written == [] then -1 else written[|written| - 1] }

  predicate NonDecreasing(written: seq<nat>) {
    forall i, j :: 0 <= i <= j < |written| ==> written[i] <= written[j]
  }

  predicate Kept(s: Stream) {
    // one push at most, and the flag says so
    && |s.pushes| == (if s.sending then 1 else 0)
    && (s.dirty && !s.closed ==> s.sending)
    // every push started was asked for; a remembered request stands for one not yet started
    && s.queries + (if s.sending && !s.pushes[0].Holding? then 1 else 0) + (if s.dirty then 1 else 0) <= s.triggers
    // what was read and what was written
    && s.announced <= s.db
    && NonDecreasing(s.written) && Last(s.written) <= s.db
    && (s.sending && s.pushes[0].Holding? ==>
          Last(s.written) <= s.pushes[0].version <= s.db
          && (!s.closed && !s.dirty ==> s.announced <= s.pushes[0].version))
    && (!s.closed && !s.sending && s.outcome == Some(Wrote) ==> s.announced <= Last(s.written))
  }

  lemma TriggeredKept(s: Stream, announced: nat)
    requires Kept(s) && (announced == s.announced || announced == s.db)
    ensures Kept(Triggered(s.(announced := announced)))
  {
  }

  lemma FinishedKept(s: Stream, outcome: Outcome)
    requires |s.pushes| == 1 && s.sending
    requires s.queries + (if s.dirty then 1 else 0) <= s.triggers
    requires s.announced <= s.db && NonDecreasing(s.written) && Last(s.written) <= s.db
    requires outcome == Wrote && !s.dirty ==> s.announced <= Last(s.written)
    ensures Kept(Finished(s, 0, outcome))
  {
    assert s.pushes[..0] + s.pushes[1..] == [];
  }

  lemma WrittenGrows(written: seq<nat>, version: nat)
    requires NonDecreasing(written) && Last(written) <= version
    ensures NonDecreasing(written + [version]) && Last(written + [version]) == version
  {
  }

  lemma NextKept(s: Stream, step: Step)
    requires Kept(s) && Allowed(s, step)
    ensures Kept(Next(s, step))
  {
    match step
    case RideEvent => TriggeredKept(s, s.db);
    case Heartbeat => TriggeredKept(s, s.announced);
    case Checked(i, result) =>
      if result.Throws? {
        FinishedKept(s, Failed);
      } else if result.Invalid? {
        FinishedKept(s.(ended := true), Refused);
      }
    case Answered(i, ok, drained) =>
      if !ok {
        FinishedKept(s, Failed);
      } else if s.closed {
        FinishedKept(s, Discarded);
      } else {
        WrittenGrows(s.written, s.pushes[0].version);
        FinishedKept(Written(s, s.pushes[0].version).(ended := s.ended || !drained), Wrote);
      }
    case _ =>
  }

  lemma {:induction false} RunKept(db: nat, steps: seq<Step>)
    requires Legal(db, steps)
    ensures Kept(Run(db, steps))
  {
    if steps != [] {
      RunKept(db, steps[..|steps| - 1]);
      NextKept(Run(db, steps[..|steps| - 1]), steps[|steps| - 1]);
    }
  }

  /** At most one snapshot is being read at any time, and no more are read than were asked for. */
  lemma OnePushAtATime(db: nat, steps: seq<Step>)
    requires Legal(db, steps)
    ensures |Run(db, steps).pushes| <= 1
    ensures Run(db, steps).queries <= Run(db, steps).triggers
  {
    RunKept(db, steps);
  }

  /** Whenever the stream is open and idle and its last push succeeded, the last snapshot written
      was read after the last ride event. Snapshots never go back in time. */
  lemma LastStateWins(db: nat, steps: seq<Step>)
    requires Legal(db, steps)
    ensures
      var s := Run(db, steps);
      !s.closed && !s.sending && s.outcome == Some(Wrote) ==> s.written != [] && s.announced <= Last(s.written)
    ensures NonDecreasing(Run(db, steps).written)
  {
    RunKept(db, steps);
  }

  /** The steps by which a running push succeeds. */
  function Succeeding(p: Push): seq<Step> {
    match p
    case Checking => [Checked(0, Valid), Queried(0), Answered(0, true, true)]
    case Reading => [Queried(0), Answered(0, true, true)]
    case Holding(_) => [Answered(0, true, true)]
  }

  function RunFrom(s: Stream, steps: seq<Step>): Stream
    decreases |steps|
  {
    if steps == [] then s
    else if Allowed(s, steps[0]) then RunFrom(Next(s, steps[0]), steps[1..])
    else s
  }

  /** One more snapshot is out, and only a request made meanwhile keeps the stream busy. */
  predicate Succeeded(s: Stream, done: Stream) {
    && done.announced == s.announced && !done.closed && done.outcome == Some(Wrote)
    && |done.written| == |s.written| + 1
    && !done.dirty && (done.sending <==> s.dirty) && (done.sending ==> done.pushes == [Checking])
    && Kept(done)
  }

  lemma AnswerSucceeds(s: Stream)
    requires Kept(s) && s.sending && !s.closed && s.pushes[0].Holding?
    ensures Succeeded(s, RunFrom(s, Succeeding(s.pushes[0])))
  {
    var done := Next(s, Answered(0, true, true));
    NextKept(s, Answered(0, true, true));
    assert s.pushes[..0] + s.pushes[1..] == [];
    assert Succeeding(s.pushes[0])[1..] == [];
    assert RunFrom(done, []) == done;
    assert RunFrom(s, Succeeding(s.pushes[0])) == done;
  }

  lemma QuerySucceeds(s: Stream)
    requires Kept(s) && s.sending && !s.closed && s.pushes[0].Reading?
    ensures Succeeded(s, RunFrom(s, Succeeding(s.pushes[0])))
  {
    var next := Next(s, Queried(0));
    NextKept(s, Queried(0));
    AnswerSucceeds(next);
    assert Succeeding(s.pushes[0])[1..] == Succeeding(next.pushes[0]);
  }

  lemma PushSucceeds(s: Stream)
    requires Kept(s) && s.sending && !s.closed
    ensures Succeeded(s, RunFrom(s, Succeeding(s.pushes[0])))
  {
    match s.pushes[0]
    case Checking =>
      var next := Next(s, Checked(0, Valid));
      NextKept(s, Checked(0, Valid));
      QuerySucceeds(next);
      assert Succeeding(s.pushes[0])[1..] == Succeeding(next.pushes[0]);
    case Reading => QuerySucceeds(s);
    case Holding(_) => AnswerSucceeds(s);
  }

  /** However a busy open stream stands, once its pushes succeed and nothing new is asked for, it
      is idle after at most two of them, with a snapshot no older than the last ride event. */
  lemma QuietStreamCatchesUp(db: nat, steps: seq<Step>)
    requires Legal(db, steps) && Run(db, steps).sending && !Run(db, steps).closed
    ensures
      var s := Run(db, steps);
      s.pushes != []
      && var once := RunFrom(s, Succeeding(s.pushes[0]));
         var idle := if once.sending then RunFrom(once, Succeeding(Checking)) else once;
         !idle.sending && !idle.dirty && s.announced <= Last(idle.written)
  {
    RunKept(db, steps);
    var s := Run(db, steps);
    PushSucceeds(s);
    var once := RunFrom(s, Succeeding(s.pushes[0]));
    if once.sending {
      PushSucceeds(once);
    }
  }

  // ---------- what is written ----------

  /** A push whose session is no longer valid writes no snapshot and ends the response; one whose
      check throws writes none and leaves it open. */
  lemma InvalidSessionEnds(db: nat, steps: seq<Step>, i: nat, result: Check)
    requires Legal(db, steps) && Allowed(Run(db, steps), Checked(i, result)) && !result.Valid?
    ensures
      var s := Run(db, steps);
      var n := Next(s, Checked(i, result));
      && n.written == s.written && (result.Invalid? ==> n.ended) && (result.Throws? ==> n.ended == s.ended)
      && n.outcome == Some(if result.Invalid? then Refused else Failed)
      && (n.sending <==> s.dirty && !s.closed)
  {
    RunKept(db, steps);
    assert Run(db, steps).pushes[..0] + Run(db, steps).pushes[1..] == [];
  }

  /** A snapshot is written exactly when a query has succeeded on a stream not closed since: the one
      that the query read; and back-pressure ends the response. */
  lemma WrittenExactly(db: nat, steps: seq<Step>, step: Step)
    requires Legal(db, steps) && Allowed(Run(db, steps), step)
    ensures
      var s, n := Run(db, steps), Next(Run(db, steps), step);
      && n.written == s.written + (if step.Answered? && step.ok && !s.closed then [s.pushes[step.i].version] else [])
      && (step.Answered? && step.ok && !s.closed ==> n.ended == (s.ended || !step.drained))
      && (n.ended && !s.ended ==> step.Answered? || step.Checked?)
      && n.afterEnd == s.afterEnd + (if |n.written| > |s.written| && s.ended then 1 else 0)
  {
    RunKept(db, steps);
  }

  function Asked(steps: seq<Step>): nat {
    if steps == [] then 0
    else Asked(steps[..|steps| - 1]) + if steps[|steps| - 1].RideEvent? || steps[|steps| - 1].Heartbeat? then 1 else 0
  }

  /** The instant of the database that the last ride event of the run announced. */
  function Announced(db: nat, steps: seq<Step>): nat {
    if steps == [] then db
    else if steps[|steps| - 1].RideEvent? then Run(db, steps[..|steps| - 1]).db
    else Announced(db, steps[..|steps| - 1])
  }

  /** What the counters of a run count: the opening, the ride events and the heartbeats; and what the
      last ride event announced. A stream opens with one push, nothing remembered and nothing
      written. */
  lemma {:induction false} RunCounts(db: nat, steps: seq<Step>)
    requires Legal(db, steps)
    ensures Run(db, steps).triggers == 1 + Asked(steps) && Run(db, steps).announced == Announced(db, steps)
    ensures
      var s := Run(db, []);
      s.pushes == [Checking] && s.sending && !s.dirty && !s.closed && !s.ended && s.written == [] && s.afterEnd == 0
  {
    if steps != [] {
      RunCounts(db, steps[..|steps| - 1]);
    }
  }

  /** A query reads the database as it is when it runs. */
  lemma QueryReadsNow(db: nat, steps: seq<Step>, i: nat)
    requires Legal(db, steps) && Allowed(Run(db, steps), Queried(i))
    ensures Next(Run(db, steps), Queried(i)).pushes == [Holding(Run(db, steps).db)]
  {
    RunKept(db, steps);
  }

  // ---------- after the end ----------

  /** Snapshots read, and the one that a running push may still read. */
  function Readings(s: Stream): nat
    requires Kept(s)
  {
    s.queries + if s.sending && !s.pushes[0].Holding? then 1 else 0
  }

  /** What a closed stream has come to: nothing more is written, and nothing starts. */
  predicate Winding(s: Stream, n: Stream)
    requires Kept(s)
  {
    Kept(n) && n.closed && n.written == s.written && Readings(n) <= Readings(s) && (n.sending ==> s.sending)
  }

  lemma ClosedNext(s: Stream, step: Step)
    requires Kept(s) && s.closed && Allowed(s, step)
    ensures Winding(s, Next(s, step))
  {
    NextKept(s, step);
  }

  /** A closed stream, whatever else happens to it. */
  lemma {:induction false} ClosedStays(s: Stream, more: seq<Step>)
    requires Kept(s) && s.closed
    ensures Winding(s, RunFrom(s, more))
    decreases |more|
  {
    if more != [] && Allowed(s, more[0]) {
      ClosedNext(s, more[0]);
      ClosedStays(Next(s, more[0]), more[1..]);
    }
  }

  /** Whenever the client goes away: from then on nothing is written, no push is started, and a
      push that is running reads at most one more snapshot and throws it away. */
  lemma NothingWrittenAfterClose(db: nat, steps: seq<Step>, more: seq<Step>)
    requires Legal(db, steps)
    ensures
      var s := Run(db, steps);
      var n := RunFrom(Next(s, Close), more);
      && n.closed && n.written == s.written && n.queries <= s.queries + (if s.sending then 1 else 0)
      && (!s.sending ==> !n.sending)
  {
    RunKept(db, steps);
    NextKept(Run(db, steps), Close);
    ClosedStays(Next(Run(db, steps), Close), more);
  }

  lemma OneMoreStep(db: nat, steps: seq<Step>, step: Step)
    requires Legal(db, steps) && Allowed(Run(db, steps), step)
    ensures Legal(db, steps + [step]) && Run(db, steps + [step]) == Next(Run(db, steps), step)
  {
    assert (steps + [step])[..|steps|] == steps;
  }

  predicate Asks(step: Step) { step.RideEvent? || step.Heartbeat? }

  predicate NothingAsked(steps: seq<Step>) { forall i :: 0 <= i < |steps| ==> !Asks(steps[i]) }

  lemma {:induction false} IdleStreamStaysQuiet(s: Stream, steps: seq<Step>)
    requires |s.pushes| == 0 && NothingAsked(steps)
    ensures RunFrom(s, steps).written == s.written
    decreases |steps|
  {
    if steps != [] && Allowed(s, steps[0]) {
      assert !Asks(steps[0]);
      IdleStreamStaysQuiet(Next(s, steps[0]), steps[1..]);
    }
  }

  /** With nothing new asked for, an ended response that is not closed yet can be written to
      exactly when a push was still running. */
  lemma WritesAfterEndIff(s: Stream)
    requires Kept(s) && s.ended && !s.closed
    ensures s.sending <==> exists steps :: NothingAsked(steps) && RunFrom(s, steps).written != s.written
  {
    if s.sending {
      PushSucceeds(s);
      assert NothingAsked(Succeeding(s.pushes[0]));
    } else {
      forall steps | NothingAsked(steps)
        ensures RunFrom(s, steps).written == s.written
      {
        IdleStreamStaysQuiet(s, steps);
      }
    }
  }

  /** A push of an open stream at `p`, with another one already asked for. */
  predicate Busy(s: Stream, p: Push) {
    !s.closed && s.sending && s.dirty && s.pushes == [p]
  }

  lemma BusyPushRefused(s: Stream)
    requires Busy(s, Holding(s.db))
    ensures
      var next := Next(s, Answered(0, true, false));
      next.ended && next.sending && !next.closed
  {
  }

  /** And such a push can be running: a response that stops taking data is ended, and the event
      that arrived meanwhile starts the next push on it. */
  lemma EndedStreamStillWrites(db: nat)
    ensures exists steps, more ::
      && Legal(db, steps) && Run(db, steps).ended && !Run(db, steps).closed && NothingAsked(more)
      && RunFrom(Run(db, steps), more).written != Run(db, steps).written
  {
    assert Legal(db, []) && Run(db, []) == Opened(db);
    var asked, checked, queried, refused :=
      [RideEvent], [RideEvent, Checked(0, Valid)], [RideEvent, Checked(0, Valid), Queried(0)],
      [RideEvent, Checked(0, Valid), Queried(0), Answered(0, true, false)];
    OneMoreStep(db, [], RideEvent);
    assert [] + [RideEvent] == asked && Busy(Run(db, asked), Checking);
    OneMoreStep(db, asked, Checked(0, Valid));
    assert asked + [Checked(0, Valid)] == checked && Busy(Run(db, checked), Reading);
    OneMoreStep(db, checked, Queried(0));
    assert checked + [Queried(0)] == queried && Busy(Run(db, queried), Holding(Run(db, queried).db));
    OneMoreStep(db, queried, Answered(0, true, false));
    assert queried + [Answered(0, true, false)] == refused;
    BusyPushRefused(Run(db, queried));
    RunKept(db, refused);
    WritesAfterEndIff(Run(db, refused));
  }
}
