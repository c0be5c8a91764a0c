/** Writing one batch with retries and timeouts: a timed-out attempt keeps running and may still commit later. */
module Retry {
  import opened Sequences

  datatype Verdict = Running | Succeeded | Failed

  /** One call of the retry loop: attempts started, how they ended, and what the database committed for it.
      `committed` says that the attempt in flight has committed and the loop has not seen it yet;
      `late` counts abandoned attempts whose fate is still open. */
  datatype Write = Write(started: nat, inFlight: bool, committed: bool, errored: nat, timedOut: nat, late: nat, lost: nat,
                         commits: nat, verdict: Verdict)

  const UNSTARTED := Write(0, false, false, 0, 0, 0, 0, 0, Running)

  datatype Event =
    | Start        // the loop begins an attempt
    | Commit       // the database commits the attempt in flight
    | Succeed      // the loop receives nil from an attempt that committed
    | Refuse       // the loop receives an error from an attempt that committed nothing
    | TimeOut      // the loop stops waiting for the attempt, whether it has committed or not
    | LateCommit   // an abandoned attempt commits after all
    | LateLoss     // an abandoned attempt ends without committing
    | GiveUp       // no attempts are left

  predicate CanStep(attempts: int, w: Write, e: Event) {
    match e
    case Start => w.verdict.Running? && !w.inFlight && w.started < attempts
    case Commit => w.inFlight && !w.committed
    case Succeed => w.inFlight && w.committed
    case Refuse => w.inFlight && !w.committed
    case TimeOut => w.inFlight
    case LateCommit => w.late > 0
    case LateLoss => w.late > 0
    case GiveUp => w.verdict.Running? && !w.inFlight && w.started >= attempts
  }

  function Step(attempts: int, w: Write, e: Event): Write
    requires CanStep(attempts, w, e)
  {
    match e
    case Start => w.(started := w.started + 1, inFlight := true)
    case Commit => w.(committed := true, commits := w.commits + 1)
    case Succeed => w.(inFlight := false, committed := false, verdict := Succeeded)
    case Refuse => w.(inFlight := false, errored := w.errored + 1)
    case TimeOut =>
      w.(inFlight := false, committed := false, timedOut := w.timedOut + 1, late := if w.committed then w.late else w.late + 1)
    case LateCommit => w.(late := w.late - 1, commits := w.commits + 1)
    case LateLoss => w.(late := w.late - 1, lost := w.lost + 1)
    case GiveUp => w.(verdict := Failed)
  }

  function One(b: bool): nat { if b then 1 else 0 }

  function AttemptsAllowed(attempts: int): nat { if attempts < 0 then 0 else attempts }

  /** What holds of a write at every moment: every attempt and every commit is accounted for. */
  predicate Accounted(attempts: int, w: Write) {
    && w.started <= AttemptsAllowed(attempts)
    && w.started == w.errored + w.timedOut + One(w.inFlight) + One(w.verdict.Succeeded?)
    && w.commits + w.late + w.lost == w.timedOut + One(w.committed) + One(w.verdict.Succeeded?)
    && w.commits >= One(w.committed) + One(w.verdict.Succeeded?)
    && (w.inFlight ==> w.verdict.Running?) && (w.committed ==> w.inFlight)
    && (w.verdict.Failed? ==> w.started == AttemptsAllowed(attempts))
  }

  lemma StepAccounted(attempts: int, w: Write, e: Event)
    requires Accounted(attempts, w) && CanStep(attempts, w, e)
    ensures Accounted(attempts, Step(attempts, w, e))
  {
  }

  /** The delivery bounds. While an attempt is in flight it may have committed unseen; once the call has
      returned, the bounds are those of its result. */
  predicate Delivered(attempts: int, w: Write) {
    && w.started <= AttemptsAllowed(attempts)
    && w.commits <= w.timedOut + One(w.inFlight) + One(w.verdict.Succeeded?)
    && (w.verdict.Succeeded? ==> 1 <= w.commits <= 1 + w.timedOut)
    && (w.verdict.Failed? ==> w.commits <= w.timedOut && w.started == AttemptsAllowed(attempts))
    && (!w.verdict.Running? && w.timedOut == 0 ==> w.commits == One(w.verdict.Succeeded?))
  }

  /** The write that a sequence of events, oldest first, leads to; none if some event cannot happen. */
  ghost function Run(attempts: int, events: seq<Event>): Option<Write> {
    if events == [] then Some(UNSTARTED)
    else
      var last := events[|events| - 1];
      match Run(attempts, events[..|events| - 1])
      case None => None
      case Some(w) => if CanStep(attempts, w, last) then Some(Step(attempts, w, last)) else None
  }

  ghost predicate Runs(attempts: int, events: seq<Event>, w: Write) {
    Run(attempts, events) == Some(w)
  }

  /** Retry delivery bounds, at every moment of every run, also after the call has returned. */
  lemma {:induction false} DeliveryBounds(attempts: int, events: seq<Event>, w: Write)
    requires Runs(attempts, events, w)
    ensures Accounted(attempts, w) && Delivered(attempts, w)
  {
    if events == [] {
    } else {
      var v := Run(attempts, events[..|events| - 1]).value;
      DeliveryBounds(attempts, events[..|events| - 1], v);
      StepAccounted(attempts, v, events[|events| - 1]);
    }
  }

  lemma Extend(attempts: int, events: seq<Event>, w: Write, e: Event) returns (events': seq<Event>, w': Write)
    requires Runs(attempts, events, w) && CanStep(attempts, w, e)
    ensures events' == events + [e] && w' == Step(attempts, w, e) && Runs(attempts, events', w')
  {
    events', w' := events + [e], Step(attempts, w, e);
    assert events'[..|events|] == events;
  }

  /** A call whose first n attempts have all timed out with their fate open. */
  function TimedOut(n: nat): Write { Write(n, false, false, 0, n, n, 0, 0, Running) }

  lemma {:induction false} TimeOuts(attempts: int, n: nat) returns (events: seq<Event>)
    requires n <= attempts
    ensures Runs(attempts, events, TimedOut(n))
  {
    if n == 0 {
      events := [];
    } else {
      events := TimeOuts(attempts, n - 1);
      var w := TimedOut(n - 1);
      events, w := Extend(attempts, events, w, Start);
      events, w := Extend(attempts, events, w, TimeOut);
    }
  }

  lemma {:induction false} LateCommits(attempts: int, events: seq<Event>, w: Write, n: nat) returns (events': seq<Event>)
    requires Runs(attempts, events, w) && n <= w.late
    ensures Runs(attempts, events', w.(late := w.late - n, commits := w.commits + n))
    decreases n
  {
    if n == 0 {
      events' := events;
    } else {
      var next;
      events', next := Extend(attempts, events, w, LateCommit);
      events' := LateCommits(attempts, events', next, n - 1);
    }
  }

  /** The upper bound is attained: with n attempts allowed, one successful call can commit the batch n times. */
  lemma DuplicatesAttained(attempts: int) returns (events: seq<Event>, w: Write)
    requires attempts >= 1
    ensures Runs(attempts, events, w) && w.verdict.Succeeded? && w.commits == attempts == 1 + w.timedOut
  {
    var n := attempts - 1;
    events := TimeOuts(attempts, n);
    w := TimedOut(n);
    events, w := Extend(attempts, events, w, Start);
    events, w := Extend(attempts, events, w, Commit);
    events, w := Extend(attempts, events, w, Succeed);
    events := LateCommits(attempts, events, w, n);
    w := w.(late := 0, commits := w.commits + n);
  }

  /** So is the bound for errors: a call that fails can have committed the batch as often as it tried. */
  lemma FailureCommitsAttained(attempts: nat) returns (events: seq<Event>, w: Write)
    ensures Runs(attempts, events, w) && w.verdict.Failed? && w.commits == attempts == w.timedOut
  {
    events := TimeOuts(attempts, attempts);
    w := TimedOut(attempts);
    events, w := Extend(attempts, events, w, GiveUp);
    events := LateCommits(attempts, events, w, attempts);
    w := w.(late := 0, commits := attempts);
  }

  /** Without any timeout a running call can already have committed: the loop has not received the nil yet. */
  lemma UnseenCommit(attempts: int) returns (events: seq<Event>, w: Write)
    requires attempts >= 1
    ensures Runs(attempts, events, w) && w.verdict.Running? && w.timedOut == 0 && w.commits == 1
  {
    events, w := [], UNSTARTED;
    events, w := Extend(attempts, events, w, Start);
    events, w := Extend(attempts, events, w, Commit);
  }

  datatype Outcome = Committed | Refused | NotInTime(committed: bool)

  /** How many of the first n attempts end in a way that satisfies p. */
  ghost function Among(outcome: nat -> Outcome, n: nat, p: Outcome -> bool): nat {
    if n == 0 then 0 else Among(outcome, n - 1, p) + One(p(outcome(n - 1)))
  }

  predicate Late(o: Outcome) { o.NotInTime? }

  predicate Commits(o: Outcome) { o == Committed || o == NotInTime(true) }

  predicate Undecided(o: Outcome) { o == NotInTime(false) }

  /** The retry loop, with `outcome` deciding how each attempt ends. */
  method WriteWithRetry(attempts: int, outcome: nat -> Outcome)
    returns (ok: bool, started: nat, timedOut: nat, ghost events: seq<Event>, ghost w: Write)
    ensures ok <==> exists i: nat :: i < attempts && outcome(i).Committed?
    ensures ok ==> 1 <= started <= attempts && outcome(started - 1).Committed?
                   && forall i: nat :: i < started - 1 ==> !outcome(i).Committed?
    ensures !ok ==> started == AttemptsAllowed(attempts)
    ensures timedOut == Among(outcome, started, Late)
    ensures Runs(attempts, events, w)
    ensures w.started == started && w.timedOut == timedOut && !w.inFlight
    ensures w.commits == Among(outcome, started, Commits) && w.late == Among(outcome, started, Undecided)
    ensures w.verdict == if ok then Succeeded else Failed
  {
    started, timedOut, events, w := 0, 0, [], UNSTARTED;
    while started < attempts
      invariant started <= AttemptsAllowed(attempts)
      invariant forall i: nat :: i < started ==> !outcome(i).Committed?
      invariant timedOut == Among(outcome, started, Late)
      invariant w.commits == Among(outcome, started, Commits) && w.late == Among(outcome, started, Undecided)
      invariant Runs(attempts, events, w)
      invariant w.started == started && w.timedOut == timedOut && !w.inFlight && !w.committed && w.verdict.Running?
    {
      var attempt := started;
      started := started + 1;
      events, w := Extend(attempts, events, w, Start);
      match outcome(attempt) {
        case Committed =>
          events, w := Extend(attempts, events, w, Commit);
          events, w := Extend(attempts, events, w, Succeed);
          return true, started, timedOut, events, w;
        case Refused =>
          events, w := Extend(attempts, events, w, Refuse);
        case NotInTime(committed) =>
          if committed {
            events, w := Extend(attempts, events, w, Commit);
          }
          events, w := Extend(attempts, events, w, TimeOut);
          timedOut := timedOut + 1;
      }
    }
    ok := false;
    events, w := Extend(attempts, events, w, GiveUp);
  }
}
