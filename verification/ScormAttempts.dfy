/** SCORM attempts: their numbering, the time they accumulate, and their completion. */
module ScormAttempts {
  import opened Common

  /** What a commit overwrites as it stands. */
  datatype Tracking = Tracking(lessonStatus: string, completionStatus: string, successStatus: string,
                               scoreRaw: Option<real>, scoreMin: Option<real>, scoreMax: Option<real>,
                               scoreScaled: Option<real>, location: string, suspendData: string,
                               elements: map<string, string>)

  const UNTRACKED := Tracking("not attempted", "unknown", "unknown", None, None, None, None, "", "", map[])

  datatype Attempt = Attempt(package: nat, learner: nat, number: nat, tracking: Tracking, total: nat, session: nat,
                             isComplete: bool, completedAt: Option<nat>)

  datatype Update = Update(tracking: Tracking, session: nat, isComplete: bool)

  /** A commit with the time of its transaction. */
  datatype Commit = Commit(update: Update, now: nat)

  function Of(package: nat, learner: nat): Attempt -> bool {
    (a: Attempt) => a.package == package && a.learner == learner
  }

  function Fresh(package: nat, learner: nat, number: nat): Attempt {
    Attempt(package, learner, number, UNTRACKED, 0, 0, false, None)
  }

  // ----- One commit -----

  /** How much a reading of the session time adds: its growth, or all of it when it fell, a new session then. */
  function Growth(session: nat, reading: nat): nat {
    if reading >= session then reading - session else reading
  }

  function Committed(a: Attempt, c: Commit): Attempt {
    var u := c.update;
    a.(tracking := u.tracking, total := a.total + Growth(a.session, u.session), session := u.session,
       isComplete := a.isComplete || u.isComplete,
       completedAt := if a.completedAt.Some? then a.completedAt else if u.isComplete then Some(c.now) else None)
  }

  function CommittedAll(a: Attempt, commits: seq<Commit>): Attempt {
    if commits == [] then a else Committed(CommittedAll(a, commits[..|commits| - 1]), commits[|commits| - 1])
  }

  // ----- Accumulated time -----

  function Readings(commits: seq<Commit>): seq<nat> {
    seq(|commits|, i requires 0 <= i < |commits| => commits[i].update.session)
  }

  /** The sessions of a run of readings: none falls within one, and the next begins lower. */
  ghost predicate Sessions(sessions: seq<seq<nat>>, readings: seq<nat>) {
    && Joined(sessions) == readings
    && (forall k | 0 <= k < |sessions| :: sessions[k] != [] && Rising(sessions[k]))
    && (forall k | 0 < k < |sessions| :: sessions[k][0] < Last(sessions[k - 1]))
  }

  predicate Rising(session: seq<nat>) {
    forall i | 0 < i < |session| :: session[i - 1] <= session[i]
  }

  function Joined(sessions: seq<seq<nat>>): seq<nat> {
    if sessions == [] then [] else Joined(sessions[..|sessions| - 1]) + sessions[|sessions| - 1]
  }

  function Last(session: seq<nat>): nat {
    if session == [] then 0 else session[|session| - 1]
  }

  function SumOfLasts(sessions: seq<seq<nat>>): nat {
    if sessions == [] then 0 else SumOfLasts(sessions[..|sessions| - 1]) + Last(sessions[|sessions| - 1])
  }

  /** The time accumulated by committing these readings to an attempt. */
  function Total(readings: seq<nat>): nat {
    if readings == [] then 0
    else
      var init := readings[..|readings| - 1];
      Total(init) + Growth(Last(init), readings[|readings| - 1])
  }

  lemma TotalMore(readings: seq<nat>, r: nat)
    ensures Total(readings + [r]) == Total(readings) + Growth(Last(readings), r)
  {
    assert (readings + [r])[..|readings|] == readings;
  }

  /** A session adds its last reading, once it began lower than what was read before. */
  lemma {:induction false} TotalOfSession(before: seq<nat>, session: seq<nat>)
    requires session != [] && Rising(session) && (before != [] ==> session[0] < Last(before))
    ensures Total(before + session) == Total(before) + Last(session)
  {
    var n := |session| - 1;
    assert before + session == (before + session[..n]) + [session[n]];
    TotalMore(before + session[..n], session[n]);
    if n > 0 {
      TotalOfSession(before, session[..n]);
    } else {
      assert before + session[..n] == before;
    }
  }

  /** The accumulated time is the sum over the sessions of the last reading of each. */
  lemma {:induction false} TotalIsSumOfSessions(sessions: seq<seq<nat>>, readings: seq<nat>)
    requires Sessions(sessions, readings)
    ensures Total(readings) == SumOfLasts(sessions)
  {
    if sessions == [] {
    } else {
      var n := |sessions| - 1;
      var init := sessions[..n];
      assert Joined(init) + sessions[n] == readings;
      TotalIsSumOfSessions(init, Joined(init));
      if n > 0 {
        JoinedLast(init);
      }
      TotalOfSession(Joined(init), sessions[n]);
    }
  }

  lemma JoinedLast(sessions: seq<seq<nat>>)
    requires sessions != [] && sessions[|sessions| - 1] != []
    ensures Joined(sessions) != [] && Last(Joined(sessions)) == Last(sessions[|sessions| - 1])
  {
  }

  /** Every run of readings is made of sessions. */
  lemma {:induction false} MadeOfSessions(readings: seq<nat>) returns (sessions: seq<seq<nat>>)
    ensures Sessions(sessions, readings)
  {
    sessions := [];
    if readings != [] {
      var n := |readings| - 1;
      var init := MadeOfSessions(readings[..n]);
      assert readings[..n] + [readings[n]] == readings;
      if init != [] && Last(init[|init| - 1]) <= readings[n] {
        sessions := SessionGoesOn(init, readings[..n], readings[n]);
      } else {
        sessions := SessionStarts(init, readings[..n], readings[n]);
      }
    }
  }

  lemma SessionStarts(init: seq<seq<nat>>, readings: seq<nat>, r: nat) returns (sessions: seq<seq<nat>>)
    requires Sessions(init, readings) && (init != [] ==> Last(init[|init| - 1]) > r)
    ensures Sessions(sessions, readings + [r])
  {
    sessions := init + [[r]];
    assert sessions[..|init|] == init;
  }

  lemma JoinedGoesOn(init: seq<seq<nat>>, session: seq<nat>, r: nat)
    ensures Joined(init + [session + [r]]) == Joined(init + [session]) + [r]
  {
    assert (init + [session])[..|init|] == init && (init + [session + [r]])[..|init|] == init;
    assert Joined(init) + (session + [r]) == Joined(init) + session + [r];
  }

  lemma RisingGoesOn(session: seq<nat>, r: nat)
    requires session != [] && Rising(session) && Last(session) <= r
    ensures Rising(session + [r]) && (session + [r])[0] == session[0]
  {
  }

  lemma SessionGoesOn(init: seq<seq<nat>>, readings: seq<nat>, r: nat) returns (sessions: seq<seq<nat>>)
    requires Sessions(init, readings) && init != [] && Last(init[|init| - 1]) <= r
    ensures Sessions(sessions, readings + [r])
  {
    var m := |init| - 1;
    sessions := init[..m] + [init[m] + [r]];
    assert init[..m] + [init[m]] == init;
    JoinedGoesOn(init[..m], init[m], r);
    RisingGoesOn(init[m], r);
    forall k | 0 < k < |sessions| ensures sessions[k][0] < Last(sessions[k - 1]) {
      assert init[k][0] < Last(init[k - 1]);
    }
  }

  /**
   * A reading taken between two others that do not fall, or repeating the one
   * before it, does not change the total: how often a package commits does not
   * matter.
   */
  lemma {:induction false} ExtraCommitHarmless(before: seq<nat>, r: nat, after: seq<nat>)
    requires Last(before) <= r
    requires r == Last(before) || (after != [] && r <= after[0])
    ensures Total(before + [r] + after) == Total(before + after)
  {
    var n := |after| - 1;
    if after == [] {
      assert before + [r] + after == before + [r] && before + after == before;
      TotalMore(before, r);
    } else {
      assert before + [r] + after == (before + [r] + after[..n]) + [after[n]];
      assert before + after == (before + after[..n]) + [after[n]];
      TotalMore(before + [r] + after[..n], after[n]);
      TotalMore(before + after[..n], after[n]);
      if n == 0 {
        assert before + [r] + after[..n] == before + [r] && before + after[..n] == before;
        TotalMore(before, r);
      } else {
        ExtraCommitHarmless(before, r, after[..n]);
      }
    }
  }

  // ----- Completion -----

  predicate Terminal(c: Commit) {
    c.update.isComplete
  }

  /** The time and the last reading of an attempt are those of its commits. */
  lemma {:induction false} TimeOfCommits(a: Attempt, commits: seq<Commit>)
    requires a.total == 0 && a.session == 0
    ensures CommittedAll(a, commits).total == Total(Readings(commits))
    ensures CommittedAll(a, commits).session == Last(Readings(commits))
  {
    if commits == [] {
    } else {
      var n := |commits| - 1;
      TimeOfCommits(a, commits[..n]);
      assert Readings(commits)[..n] == Readings(commits[..n]);
    }
  }

  /** An attempt is complete once a commit was terminal, as of the first that was. */
  lemma {:induction false} CompleteIff(a: Attempt, commits: seq<Commit>)
    requires !a.isComplete && a.completedAt.None?
    ensures
      var b, k := CommittedAll(a, commits), First(commits, Terminal);
      && (b.isComplete <==> k.Some?)
      && b.completedAt == if k.Some? then Some(commits[k.value].now) else None
  {
    if commits == [] {
    } else {
      CompleteIff(a, commits[..|commits| - 1]);
    }
  }

  lemma LastTracked(a: Attempt, commits: seq<Commit>)
    ensures
      var b := CommittedAll(a, commits);
      if commits == [] then b == a
      else b.tracking == commits[|commits| - 1].update.tracking && b.session == commits[|commits| - 1].update.session
  {
  }

  // ----- Runs -----

  datatype Action = Launch(package: nat, learner: nat) | Save(id: nat, commit: Commit)

  /** ORDER BY attempt_number DESC LIMIT 1. */
  function Highest(attempts: seq<Attempt>, package: nat, learner: nat): (r: Option<nat>)
    ensures r.Some? ==> r.value < |attempts| && Of(package, learner)(attempts[r.value])
    ensures r.Some? ==>
      forall i | 0 <= i < |attempts| && Of(package, learner)(attempts[i]) :: attempts[i].number <= attempts[r.value].number
    ensures r.None? ==> forall i | 0 <= i < |attempts| :: !Of(package, learner)(attempts[i])
  {
    if attempts == [] then None
    else
      var last := |attempts| - 1;
      var init := attempts[..last];
      var best := Highest(init, package, learner);
      assert forall i | 0 <= i < last :: init[i] == attempts[i];
      if Of(package, learner)(attempts[last]) && (best.None? || attempts[last].number > init[best.value].number)
      then Some(last)
      else best
  }

  /** The attempt in progress is resumed; otherwise one with the next number starts. */
  function Launched(attempts: seq<Attempt>, package: nat, learner: nat): seq<Attempt> {
    var h := Highest(attempts, package, learner);
    if h.Some? && !attempts[h.value].isComplete then attempts
    else attempts + [Fresh(package, learner, if h.None? then 1 else attempts[h.value].number + 1)]
  }

  function After(attempts: seq<Attempt>, a: Action): seq<Attempt> {
    match a
    case Launch(package, learner) => Launched(attempts, package, learner)
    case Save(id, commit) => if id < |attempts| then attempts[id := Committed(attempts[id], commit)] else attempts
  }

  function Run(actions: seq<Action>): seq<Attempt> {
    if actions == [] then [] else After(Run(actions[..|actions| - 1]), actions[|actions| - 1])
  }

  // ----- Numbering -----

  ghost predicate NumberedAt(attempts: seq<Attempt>, i: nat)
    requires i < |attempts|
  {
    attempts[i].number == Count(attempts[..i], Of(attempts[i].package, attempts[i].learner)) + 1
  }

  /** A learner's attempts at a package are numbered 1, 2, 3 and so on, and all but the last are complete. */
  ghost predicate Numbered(attempts: seq<Attempt>) {
    && (forall i | 0 <= i < |attempts| :: NumberedAt(attempts, i))
    && (forall i, j | 0 <= i < j < |attempts| && Of(attempts[j].package, attempts[j].learner)(attempts[i]) ::
          attempts[i].isComplete)
  }

  lemma {:induction false} HighestIsCount(attempts: seq<Attempt>, package: nat, learner: nat)
    requires forall i | 0 <= i < |attempts| :: NumberedAt(attempts, i)
    ensures
      var h, n := Highest(attempts, package, learner), Count(attempts, Of(package, learner));
      && (h.None? <==> n == 0) && (h.Some? ==> attempts[h.value].number == n)
      && (h.Some? ==> forall i | h.value < i < |attempts| :: !Of(package, learner)(attempts[i]))
  {
    if attempts == [] {
    } else {
      var last := |attempts| - 1;
      var init := attempts[..last];
      forall i | 0 <= i < last ensures NumberedAt(init, i) {
        assert NumberedAt(attempts, i) && init[..i] == attempts[..i];
      }
      HighestIsCount(init, package, learner);
      assert NumberedAt(attempts, last);
    }
  }

  lemma LaunchKeepsNumbered(attempts: seq<Attempt>, package: nat, learner: nat)
    requires Numbered(attempts)
    ensures Numbered(Launched(attempts, package, learner))
  {
    var more := Launched(attempts, package, learner);
    HighestIsCount(attempts, package, learner);
    forall i | 0 <= i < |more| ensures NumberedAt(more, i) {
      if i < |attempts| {
        assert NumberedAt(attempts, i) && more[..i] == attempts[..i];
      } else {
        assert more[..i] == attempts;
      }
    }
  }

  lemma SaveKeepsNumbered(attempts: seq<Attempt>, id: nat, commit: Commit)
    requires Numbered(attempts) && id < |attempts|
    ensures Numbered(attempts[id := Committed(attempts[id], commit)])
  {
    var saved := attempts[id := Committed(attempts[id], commit)];
    forall i | 0 <= i < |saved| ensures NumberedAt(saved, i) {
      assert NumberedAt(attempts, i);
      if id < i {
        assert saved[..i] == attempts[..i][id := saved[id]];
        CountUpdate(attempts[..i], id, saved[id], Of(attempts[i].package, attempts[i].learner));
      } else {
        assert saved[..i] == attempts[..i];
      }
    }
  }

  /** In every reachable state. */
  lemma {:induction false} AttemptsNumbered(actions: seq<Action>)
    ensures Numbered(Run(actions))
  {
    if actions == [] {
    } else {
      var n := |actions| - 1;
      AttemptsNumbered(actions[..n]);
      match actions[n]
      case Launch(package, learner) => LaunchKeepsNumbered(Run(actions[..n]), package, learner);
      case Save(id, commit) => if id < |Run(actions[..n])| { SaveKeepsNumbered(Run(actions[..n]), id, commit); }
    }
  }

  /**
   * A launch leaves every attempt as it is, and adds one only where all of the
   * learner's attempts at the package are complete; a commit changes its own
   * attempt only, and never whose it is or its number.
   */
  lemma OnlyItsAttempt(attempts: seq<Attempt>, a: Action)
    requires Numbered(attempts)
    ensures
      var after := After(attempts, a);
      && |attempts| <= |after| <= |attempts| + 1
      && (forall i | 0 <= i < |attempts| ::
            && after[i].package == attempts[i].package && after[i].learner == attempts[i].learner
            && after[i].number == attempts[i].number
            && (a.Launch? || i != a.id ==> after[i] == attempts[i]))
      && (a.Save? ==> |after| == |attempts|)
      && (a.Launch? ==>
            (|after| == |attempts| + 1 <==>
               forall i | 0 <= i < |attempts| && attempts[i].package == a.package && attempts[i].learner == a.learner ::
                 attempts[i].isComplete))
      && (|after| == |attempts| + 1 ==>
            var started := after[|attempts|];
            && started.package == a.package && started.learner == a.learner
            && !started.isComplete && started.total == 0)
  {
    if a.Launch? {
      var h := Highest(attempts, a.package, a.learner);
      HighestIsCount(attempts, a.package, a.learner);
      if h.Some? && attempts[h.value].isComplete {
        forall i | 0 <= i < |attempts| && attempts[i].package == a.package && attempts[i].learner == a.learner
          ensures attempts[i].isComplete
        {
          assert Of(a.package, a.learner)(attempts[i]);
        }
      }
      if h.None? {
        forall i | 0 <= i < |attempts| ensures !(attempts[i].package == a.package && attempts[i].learner == a.learner) {
          assert !Of(a.package, a.learner)(attempts[i]);
        }
      }
    }
  }

  // ----- What a run makes of an attempt -----

  /** The commits of a run to attempt `id`, once it was there. */
  function CommitsTo(actions: seq<Action>, id: nat): seq<Commit> {
    if actions == [] then []
    else
      var init, a := actions[..|actions| - 1], actions[|actions| - 1];
      CommitsTo(init, id) + if a.Save? && a.id == id && id < |Run(init)| then [a.commit] else []
  }

  /** An attempt is what its commits, in their order, made of a fresh one. */
  lemma {:induction false} HistoryDecides(actions: seq<Action>, id: nat)
    ensures |Run(actions)| <= id ==> CommitsTo(actions, id) == []
    ensures id < |Run(actions)| ==> Made(Run(actions)[id], CommitsTo(actions, id))
  {
    if actions == [] {
    } else {
      var init, a := actions[..|actions| - 1], actions[|actions| - 1];
      HistoryDecides(init, id);
      if id < |Run(init)| {
        StepMade(Run(init), a, id, CommitsTo(init, id));
      }
    }
  }

  ghost predicate Made(a: Attempt, commits: seq<Commit>) {
    a == CommittedAll(Fresh(a.package, a.learner, a.number), commits)
  }

  lemma StepMade(attempts: seq<Attempt>, a: Action, id: nat, commits: seq<Commit>)
    requires id < |attempts| && Made(attempts[id], commits)
    ensures id < |After(attempts, a)|
    ensures Made(After(attempts, a)[id], commits + if a.Save? && a.id == id then [a.commit] else [])
  {
    if a.Save? && a.id == id {
      assert (commits + [a.commit])[..|commits|] == commits;
    } else {
      assert commits + [] == commits;
    }
  }

  /**
   * So in every reachable state an attempt's time is the sum over its sessions
   * of the last reading of each, it is complete exactly when one of its commits
   * was terminal, and completed at the time of the first of these for good. What
   * it tracks is what its last commit brought.
   */
  lemma AttemptsTellTheirHistory(actions: seq<Action>, id: nat, a: Attempt, commits: seq<Commit>, sessions: seq<seq<nat>>)
    requires id < |Run(actions)| && a == Run(actions)[id] && commits == CommitsTo(actions, id)
    requires Sessions(sessions, Readings(commits))
    ensures
      var first := First(commits, Terminal);
      && a.total == SumOfLasts(sessions)
      && (a.isComplete <==> first.Some?)
      && a.completedAt == if first.Some? then Some(commits[first.value].now) else None
    ensures commits != [] ==>
              var u := commits[|commits| - 1].update; a.tracking == u.tracking && a.session == u.session
    ensures commits == [] ==>
              && a.tracking.lessonStatus == "not attempted"
              && a.tracking.completionStatus == "unknown" && a.tracking.successStatus == "unknown"
              && a.tracking.elements == map[] && a.session == 0
  {
    HistoryDecides(actions, id);
    var started := Fresh(a.package, a.learner, a.number);
    LastTracked(started, commits);
    TimeOfCommits(started, commits);
    TotalIsSumOfSessions(sessions, Readings(commits));
    CompleteIff(started, commits);
  }

  // ----- The repository -----

  class AttemptStore {
    var attempts: seq<Attempt>

    ghost predicate Valid()
      reads this
    {
      Numbered(attempts)
    }

    constructor ()
      ensures Valid() && attempts == Run([])
    {
      attempts := [];
    }

    /** The highest-numbered attempt of a learner at a package. */
    method Latest(package: nat, learner: nat) returns (best: Option<nat>)
      ensures best == Highest(attempts, package, learner)
    {
      best := None;
      for i := 0 to |attempts|
        invariant best == Highest(attempts[..i], package, learner)
      {
        assert attempts[..i + 1][..i] == attempts[..i];
        var a := attempts[i];
        if a.package == package && a.learner == learner && (best.None? || a.number > attempts[best.value].number) {
          best := Some(i);
        }
      }
      assert attempts[..|attempts|] == attempts;
    }

    /** Launches into the attempt in progress, or else into a new one. */
    method StartOrResume(package: nat, learner: nat) returns (id: nat)
      requires Valid()
      modifies this
      ensures Valid() && attempts == Launched(old(attempts), package, learner)
      ensures id < |attempts| && Of(package, learner)(attempts[id]) && !attempts[id].isComplete
      ensures attempts[id].number == Count(attempts, Of(package, learner))
    {
      LaunchKeepsNumbered(attempts, package, learner);
      HighestIsCount(attempts, package, learner);
      var prev := Latest(package, learner);
      if prev.Some? && !attempts[prev.value].isComplete {
        return prev.value;
      }
      var next := 1;
      if prev.Some? {
        next := attempts[prev.value].number + 1;
      }
      id := |attempts|;
      ghost var before := attempts;
      attempts := attempts + [Fresh(package, learner, next)];
      CountAppend(before, attempts[id], Of(package, learner));
    }

    /** Folds an update onto an attempt; None when there is no such attempt. */
    method Save(id: nat, u: Update, now: nat) returns (saved: Option<Attempt>)
      requires Valid()
      modifies this
      ensures Valid() && attempts == After(old(attempts), Action.Save(id, Commit(u, now)))
      ensures saved == if id < |attempts| then Some(attempts[id]) else None
    {
      if id >= |attempts| {
        return None;
      }
      SaveKeepsNumbered(attempts, id, Commit(u, now));
      var a := attempts[id];
      var total := a.total;
      if u.session >= a.session {
        total := total + (u.session - a.session);
      } else {
        total := total + u.session;
      }
      var completedAt := a.completedAt;
      if completedAt.None? && u.isComplete {
        completedAt := Some(now);
      }
      attempts := attempts[id := Attempt(a.package, a.learner, a.number, u.tracking, total, u.session,
                                         a.isComplete || u.isComplete, completedAt)];
      saved := Some(attempts[id]);
    }
  }
}
