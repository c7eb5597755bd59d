/**
 * The worker's lock file (worker/storage.ts): exclusive create on the fast path, and a recovery that
 * one process at a time may run to remove the file of a dead owner. Every file-system call is one
 * step of one attempt; processes crash, pids are reused and the machine reboots between any two.
 */
module FileLock {
  import opened Options

  type Id = int

  /** A process: its pid while it lived, the boot it ran under and whether it could tell that boot's id. */
  datatype Proc = Proc(pid: int, boot: int, knowsBoot: bool, alive: bool)

  /**
   * Where one call of `lock` (and its later release) stands: about to create the file; created but not
   * written; file found, about to make the recovery directory; the five steps of recovery; holding;
   * releasing, its own nonce having been read back; and finished.
   */
  datatype Phase =
    | Starting | Creating(recovering: bool)
    | Contending | Reading | Judging(seen: Id) | Doomed(seen: Id) | Cleared | Leaving(won: bool)
    | Holding | Releasing | Finished

  datatype Attempt = Attempt(proc: Id, phase: Phase)

  /** The lock file: its contents name the attempt that made it (pid, nonce, boot), once written. */
  datatype LockFile = LockFile(maker: Id, written: bool)

  datatype State = State(
    procs: map<Id, Proc>, boot: int, attempts: map<Id, Attempt>, file: Option<LockFile>, recovery: Option<Id>)

  datatype Action =
    | Spawn(p: Id, pid: int, knowsBoot: bool) | Crash(p: Id) | Reboot
    | Begin(a: Id, p: Id) | Act(a: Id) | WriteFails(a: Id)

  const Initial := State(map[], 0, map[], None, None)

  predicate Alive(s: State, p: Id) {
    p in s.procs && s.procs[p].alive
  }

  /** An attempt that can still take steps. */
  predicate Running(s: State, a: Id) {
    a in s.attempts && Alive(s, s.attempts[a].proc)
  }

  predicate PidInUse(s: State, pid: int) {
    exists p :: p in s.procs && s.procs[p].alive && s.procs[p].pid == pid
  }

  /** The verdict on the maker of the file: an earlier boot when both boots are known, else no such pid. */
  predicate JudgedDead(s: State, a: Id, maker: Id)
    requires a in s.attempts && s.attempts[a].proc in s.procs
    requires maker in s.attempts && s.attempts[maker].proc in s.procs
  {
    var me, it := s.procs[s.attempts[a].proc], s.procs[s.attempts[maker].proc];
    (me.knowsBoot && it.knowsBoot && me.boot != it.boot) || !PidInUse(s, it.pid)
  }

  function Moved(s: State, a: Id, phase: Phase): State
    requires a in s.attempts
  {
    s.(attempts := s.attempts[a := s.attempts[a].(phase := phase)])
  }

  /** The next file-system call of attempt `a`. */
  function Acted(s: State, a: Id): State
    requires Running(s, a)
  {
    match s.attempts[a].phase
    case Starting =>
      if s.file.None? then Moved(s, a, Creating(false)).(file := Some(LockFile(a, false))) else Moved(s, a, Contending)
    case Creating(recovering) =>
      var done := Moved(s, a, if recovering then Leaving(true) else Holding);
      if s.file.Some? && s.file.value.maker == a then done.(file := Some(LockFile(a, true))) else done
    case Contending =>
      if s.recovery.None? then Moved(s, a, Reading).(recovery := Some(a)) else Moved(s, a, Finished)
    case Reading =>
      if s.file.None? then Moved(s, a, Cleared)
      else if s.file.value.written then Moved(s, a, Judging(s.file.value.maker))
      else Moved(s, a, Leaving(false))
    case Judging(seen) =>
      if seen in s.attempts && s.attempts[seen].proc in s.procs && JudgedDead(s, a, seen) then Moved(s, a, Doomed(seen))
      else Moved(s, a, Leaving(false))
    case Doomed(_) => Moved(s, a, Cleared).(file := None)
    case Cleared =>
      if s.file.None? then Moved(s, a, Creating(true)).(file := Some(LockFile(a, false))) else Moved(s, a, Leaving(false))
    case Leaving(won) => Moved(s, a, if won then Holding else Finished).(recovery := None)
    case Holding =>
      Moved(s, a, if s.file == Some(LockFile(a, true)) then Releasing else Finished)
    case Releasing => Moved(s, a, Finished).(file := None)
    case Finished => s
  }

  /** One step; an action that cannot happen changes nothing. Process and attempt ids are never reused. */
  function Step(s: State, act: Action): State {
    match act
    case Spawn(p, pid, knowsBoot) =>
      if p in s.procs || PidInUse(s, pid) then s
      else s.(procs := s.procs[p := Proc(pid, s.boot, knowsBoot, true)])
    case Crash(p) =>
      if Alive(s, p) then s.(procs := s.procs[p := s.procs[p].(alive := false)]) else s
    case Reboot =>
      s.(boot := s.boot + 1, procs := map p | p in s.procs :: s.procs[p].(alive := false))
    case Begin(a, p) =>
      if a in s.attempts || !Alive(s, p) then s else s.(attempts := s.attempts[a := Attempt(p, Starting)])
    case Act(a) =>
      if Running(s, a) then Acted(s, a) else s
    case WriteFails(a) =>
      if Running(s, a) && s.attempts[a].phase.Creating? then
        Moved(s, a, if s.attempts[a].phase.recovering then Leaving(false) else Finished)
      else s
  }

  function After(s: State, acts: seq<Action>): State
    decreases acts
  {
    if acts == [] then s else After(Step(s, acts[0]), acts[1..])
  }

  // ----------------------------------------------------------------------------------------
  // Safety
  // ----------------------------------------------------------------------------------------

  /** From creating the file to removing it, `a` owns the lock. */
  predicate Owns(s: State, a: Id) {
    Running(s, a) &&
    match s.attempts[a].phase
    case Creating(_) => true
    case Leaving(won) => won
    case Holding => true
    case Releasing => true
    case _ => false
  }

  ghost predicate MutualExclusion(s: State) {
    forall a, b :: Owns(s, a) && Owns(s, b) ==> a == b
  }

  /** A live owner's file is there, whole once it is written, and only its own release takes it away. */
  ghost predicate OwnersKeepTheirFile(s: State) {
    forall a :: Owns(s, a) ==> s.file == Some(LockFile(a, !s.attempts[a].phase.Creating?))
  }

  /** The recovery directory is there while the attempt that made it recovers, and stays if that attempt's process goes. */
  predicate DirectoryIsUsed(s: State) {
    s.recovery.Some? ==> s.recovery.value in s.attempts && IsRecovery(s.attempts[s.recovery.value].phase)
  }

  predicate IsRecovery(phase: Phase) {
    match phase
    case Reading => true
    case Judging(_) => true
    case Doomed(_) => true
    case Cleared => true
    case Creating(recovering) => recovering
    case Leaving(_) => true
    case _ => false
  }

  predicate Recovering(s: State, a: Id) {
    Running(s, a) && IsRecovery(s.attempts[a].phase)
  }

  /** `a` is about to judge a record that its maker, in another process, has since removed or is removing. */
  predicate JudgesAnother(s: State, a: Id, maker: Id) {
    Running(s, a) && s.attempts[a].phase == Judging(maker) && maker in s.attempts
    && s.attempts[maker].proc != s.attempts[a].proc
  }

  /** The step in which an owner releases the lock while a recovering process is judging its record. */
  predicate ReleasesUnderJudgement(s: State, act: Action) {
    act.Act? && Running(s, act.a) && s.attempts[act.a].phase == Releasing
    && exists r :: r in s.attempts && JudgesAnother(s, r, act.a)
  }

  /** No owner releases while its record is being judged. */
  predicate Quiet(s: State, acts: seq<Action>)
    decreases acts
  {
    acts == [] || (!ReleasesUnderJudgement(s, acts[0]) && Quiet(Step(s, acts[0]), acts[1..]))
  }

  ghost predicate ProcsOk(s: State) {
    && (forall p :: p in s.procs ==> s.procs[p].boot <= s.boot)
    && (forall p :: Alive(s, p) ==> s.procs[p].boot == s.boot)
    && (forall p, q :: Alive(s, p) && Alive(s, q) && s.procs[p].pid == s.procs[q].pid ==> p == q)
    && (forall a :: a in s.attempts ==> s.attempts[a].proc in s.procs)
  }

  /**
   * What holds of one attempt: an owner's file is there; a recovering attempt has the directory; a judged
   * record is still in the file, unless its maker shares the judging process; and a doomed file is still
   * there with its maker's process gone.
   */
  predicate AttemptOk(s: State, a: Id) {
    Running(s, a) ==>
      var phase := s.attempts[a].phase;
      && (Owns(s, a) ==> HasFile(s, a) && s.file.value.written == !phase.Creating?)
      && (Recovering(s, a) ==> s.recovery == Some(a))
      && (phase.Judging? ==> phase.seen in s.attempts &&
                             (s.attempts[phase.seen].proc == s.attempts[a].proc || HasFile(s, phase.seen)))
      && (phase.Doomed? ==> HasFile(s, phase.seen) && phase.seen in s.attempts && !Running(s, phase.seen))
  }

  predicate HasFile(s: State, a: Id) {
    s.file.Some? && s.file.value.maker == a
  }

  ghost predicate Inv(s: State) {
    && ProcsOk(s)
    && (s.file.Some? ==> s.file.value.maker in s.attempts) && DirectoryIsUsed(s)
    && (forall a :: a in s.attempts ==> AttemptOk(s, a))
  }

  lemma InvExcludes(s: State)
    requires Inv(s)
    ensures MutualExclusion(s) && OwnersKeepTheirFile(s)
  {
    assert forall a :: Owns(s, a) ==> AttemptOk(s, a);
  }

  lemma ProcsStayOk(s: State, act: Action)
    requires ProcsOk(s)
    ensures ProcsOk(Step(s, act))
  {
  }

  /** The attempt that steps is as the invariant says afterwards. */
  lemma OwnStep(s: State, act: Action)
    requires Inv(s) && (act.Act? || act.WriteFails?) && Running(s, act.a)
    ensures AttemptOk(Step(s, act), act.a)
  {
    assert AttemptOk(s, act.a);
  }

  /** And so is every other one, unless it was judging the record of an owner that just released. */
  lemma OtherStep(s: State, act: Action, b: Id)
    requires Inv(s) && !ReleasesUnderJudgement(s, act) && b in s.attempts
    requires act.Act? || act.WriteFails? ==> act.a != b
    ensures AttemptOk(Step(s, act), b)
  {
    assert AttemptOk(s, b);
    if act.Act? && Running(s, act.a) {
      OtherAct(s, act.a, b);
    }
  }

  lemma OtherAct(s: State, a: Id, b: Id)
    requires Inv(s) && !ReleasesUnderJudgement(s, Act(a)) && b in s.attempts && a != b && Running(s, a)
    ensures AttemptOk(Acted(s, a), b)
  {
    assert AttemptOk(s, a) && AttemptOk(s, b);
  }

  /** The file names an attempt, and the directory one that recovers. */
  lemma FilesStayOk(s: State, act: Action)
    requires Inv(s)
    ensures var t := Step(s, act); (t.file.Some? ==> t.file.value.maker in t.attempts) && DirectoryIsUsed(t)
  {
    if act.Act? && Running(s, act.a) {
      assert AttemptOk(s, act.a);
    }
    if act.WriteFails? && Running(s, act.a) {
      assert AttemptOk(s, act.a);
    }
    hide ProcsOk, JudgedDead, PidInUse;
  }

  lemma BeginsOk(s: State, act: Action, b: Id)
    requires b !in s.attempts && b in Step(s, act).attempts
    ensures AttemptOk(Step(s, act), b)
  {
    hide JudgedDead;
  }

  lemma StepKeepsInv(s: State, act: Action)
    requires Inv(s) && !ReleasesUnderJudgement(s, act)
    ensures Inv(Step(s, act))
  {
    hide AttemptOk, ProcsOk, DirectoryIsUsed, Acted, JudgedDead, ReleasesUnderJudgement;
    ProcsStayOk(s, act);
    FilesStayOk(s, act);
    forall b: Id | b in Step(s, act).attempts
      ensures AttemptOk(Step(s, act), b)
    {
      if b in s.attempts {
        if (act.Act? || act.WriteFails?) && act.a == b {
          if Running(s, b) {
            OwnStep(s, act);
          } else {
            assert AttemptOk(s, b);
          }
        } else {
          OtherStep(s, act, b);
        }
      } else {
        BeginsOk(s, act, b);
      }
    }
  }

  /** Until an owner releases under judgement, at most one attempt owns the lock and its file stays. */
  lemma {:induction false} QuietRunsAreSafe(s: State, acts: seq<Action>)
    requires Inv(s) && Quiet(s, acts)
    ensures Inv(After(s, acts)) && MutualExclusion(After(s, acts))
    ensures OwnersKeepTheirFile(After(s, acts)) && DirectoryIsUsed(After(s, acts))
    decreases acts
  {
    if acts == [] {
      InvExcludes(s);
    } else {
      StepKeepsInv(s, acts[0]);
      QuietRunsAreSafe(Step(s, acts[0]), acts[1..]);
    }
  }

  /** So from the empty directory, before any process has come. */
  lemma QuietRunsFromTheStartAreSafe(acts: seq<Action>)
    requires Quiet(Initial, acts)
    ensures MutualExclusion(After(Initial, acts)) && OwnersKeepTheirFile(After(Initial, acts)) && DirectoryIsUsed(After(Initial, acts))
  {
    assert Inv(Initial);
    hide Inv, Quiet;
    QuietRunsAreSafe(Initial, acts);
  }

  // ----------------------------------------------------------------------------------------
  // Who gets the lock
  // ----------------------------------------------------------------------------------------

  /** The next `n` steps are the attempt's own. */
  function Ran(s: State, a: Id, n: nat): State
    decreases n
  {
    if n == 0 then s else Ran(Step(s, Act(a)), a, n - 1)
  }

  /** The file's record is whole, and names a process of another boot, if both boots are known, or a pid no process has now. */
  predicate IsStale(s: State, a: Id) {
    s.file.Some? && s.file.value.written && Running(s, a) && s.file.value.maker in s.attempts
    && var it := s.attempts[s.file.value.maker].proc;
       it in s.procs &&
       (|| (s.procs[it].knowsBoot && s.procs[s.attempts[a].proc].knowsBoot && s.procs[it].boot != s.procs[s.attempts[a].proc].boot)
        || forall p :: p in s.procs && s.procs[p].alive ==> s.procs[p].pid != s.procs[it].pid)
  }

  predicate IsIn(s: State, a: Id, phase: Phase) {
    a in s.attempts && s.attempts[a].phase == phase
  }

  /**
   * An attempt that nobody disturbs gets the lock exactly when there is no file, or one so stale and no recovery directory; the
   * file is then its own, written, and the directory gone. Else it ends without, and file and directory are as they were.
   */
  lemma AloneGetsLockIff(s: State, a: Id)
    requires Inv(s) && Running(s, a) && IsIn(s, a, Starting)
    ensures s.file.None? ==>
      var t := Ran(s, a, 2); IsIn(t, a, Holding) && t.file == Some(LockFile(a, true)) && t.recovery == s.recovery
    ensures s.recovery.None? && IsStale(s, a) ==>
      var t := Ran(s, a, 8); IsIn(t, a, Holding) && t.file == Some(LockFile(a, true)) && t.recovery.None?
    ensures s.file.Some? && !(s.recovery.None? && IsStale(s, a)) ==>
      var t := Ran(s, a, 8); IsIn(t, a, Finished) && t.file == s.file && t.recovery == s.recovery
  {
    if s.file.None? {
      FastPath(s, a);
    } else {
      var t := ReadsFile(s, a);
      RanThrice(s, a, 5);
      hide Step, Acted, Ran;
      if s.recovery.Some? {
        FinishesAfter(t, a, 5);
      } else if s.file.value.written {
        StaleIff(s, t, a);
        RecoveryAlone(t, a, s.file.value.maker);
      } else {
        FinishesAfter(t, a, 5);
      }
    }
  }

  lemma FastPath(s: State, a: Id)
    requires Running(s, a) && IsIn(s, a, Starting) && s.file.None?
    ensures var t := Ran(s, a, 2); IsIn(t, a, Holding) && t.file == Some(LockFile(a, true)) && t.recovery == s.recovery
  {
    var s1 := Step(s, Act(a));
    assert Ran(s1, a, 1) == Step(s1, Act(a));
  }

  /** Three steps on, an attempt that found the file has read it, or has been turned away by the directory. */
  lemma ReadsFile(s: State, a: Id) returns (t: State)
    requires Running(s, a) && IsIn(s, a, Starting) && s.file.Some?
    ensures t == Step(Step(Step(s, Act(a)), Act(a)), Act(a))
    ensures t.procs == s.procs && t.file == s.file && a in t.attempts && t.attempts[a].proc == s.attempts[a].proc
    ensures t.attempts == s.attempts[a := t.attempts[a]]
    ensures if s.recovery.Some? then t.attempts[a].phase.Finished? && t.recovery == s.recovery
            else t.recovery == Some(a) && t.attempts[a].phase == if s.file.value.written then Judging(s.file.value.maker) else Leaving(false)
  {
    var s1 := Step(s, Act(a));
    assert s1 == Moved(s, a, Contending);
    var s2 := Step(s1, Act(a));
    assert s2.attempts == s.attempts[a := s2.attempts[a]];
    t := Step(s2, Act(a));
  }

  lemma RanThrice(s: State, a: Id, n: nat)
    ensures Ran(s, a, n + 3) == Ran(Step(Step(Step(s, Act(a)), Act(a)), Act(a)), a, n)
  {
    hide Step;
    assert Ran(s, a, n + 3) == Ran(Step(s, Act(a)), a, n + 2);
    assert Ran(Step(s, Act(a)), a, n + 2) == Ran(Step(Step(s, Act(a)), Act(a)), a, n + 1);
  }

  lemma {:induction false} FinishesAfter(s: State, a: Id, n: nat)
    requires IsIn(s, a, Finished) || (IsIn(s, a, Leaving(false)) && n > 0 && Running(s, a))
    ensures var t := Ran(s, a, n);
      IsIn(t, a, Finished) && t.file == s.file && t.recovery == if IsIn(s, a, Finished) then s.recovery else None
    decreases n
  {
    if n > 0 {
      FinishesAfter(Step(s, Act(a)), a, n - 1);
    }
  }

  lemma StaleIff(s: State, t: State, a: Id)
    requires Inv(s) && Running(s, a) && s.file.Some? && s.file.value.written && a in t.attempts
    requires t.procs == s.procs && t.attempts == s.attempts[a := t.attempts[a]] && t.attempts[a].proc == s.attempts[a].proc
    ensures var maker := s.file.value.maker;
      && maker in t.attempts && t.attempts[maker].proc in t.procs && t.attempts[a].proc in t.procs
      && (IsStale(s, a) <==> JudgedDead(t, a, maker))
  {
  }

  lemma RecoveryAlone(s: State, a: Id, maker: Id)
    requires Running(s, a) && IsIn(s, a, Judging(maker)) && s.recovery == Some(a) && s.file.Some?
    requires maker in s.attempts && s.attempts[maker].proc in s.procs && s.attempts[a].proc in s.procs
    ensures var t := Ran(s, a, 5);
      if JudgedDead(s, a, maker) then IsIn(t, a, Holding) && t.file == Some(LockFile(a, true)) && t.recovery.None?
      else IsIn(t, a, Finished) && t.file == s.file && t.recovery.None?
  {
    var s1 := Step(s, Act(a));
    if JudgedDead(s, a, maker) {
      var s2 := Step(s1, Act(a));
      var s3 := Step(s2, Act(a));
      RanThrice(s, a, 2);
      var s4 := Step(s3, Act(a));
      var s5 := Step(s4, Act(a));
      assert Ran(s3, a, 2) == s5 by {
        assert Ran(s4, a, 1) == s5;
      }
    } else {
      FinishesAfter(s1, a, 4);
    }
  }

  /** A holder that nobody disturbs releases the lock, and the next attempt gets it. */
  lemma HolderReleases(s: State, a: Id)
    requires Inv(s) && Running(s, a) && IsIn(s, a, Holding)
    ensures var t := Ran(s, a, 2); IsIn(t, a, Finished) && t.file.None? && t.recovery == s.recovery
  {
    assert AttemptOk(s, a);
    var s1 := Step(s, Act(a));
    assert Ran(s1, a, 1) == Step(s1, Act(a));
  }

  // ----------------------------------------------------------------------------------------
  // The gap: a release under judgement
  // ----------------------------------------------------------------------------------------

  predicate Holds(s: State, a: Id) {
    Running(s, a) && s.attempts[a].phase == Holding
  }

  /** Two live attempts both believe that they hold the lock. */
  ghost predicate TwoHolders(s: State) {
    exists a, b :: a != b && Holds(s, a) && Holds(s, b)
  }

  /** Some continuation without a further release under judgement ends with two holders. */
  ghost predicate Breakable(s: State) {
    exists acts :: Quiet(s, acts) && TwoHolders(After(s, acts))
  }

  lemma BreakableBefore(s: State, act: Action)
    requires !ReleasesUnderJudgement(s, act) && Breakable(Step(s, act))
    ensures Breakable(s)
  {
    var rest :| Quiet(Step(s, act), rest) && TwoHolders(After(Step(s, act), rest));
    assert ([act] + rest)[1..] == rest;
    assert Quiet(s, [act] + rest);
  }

  lemma {:induction false} Fresh(used: set<int>) returns (x: int)
    ensures forall y :: y in used ==> y < x
  {
    x := 0;
    if y :| y in used {
      var z := Fresh(used - {y});
      x := if z <= y then y + 1 else z;
      assert forall w :: w in used ==> w == y || w in used - {y};
    }
  }

  /** `r` removes the file of a live newcomer `n`, because the record it read names a dead process. */
  lemma StolenFile(s: State, r: Id, n: Id)
    requires n != r && Holds(s, n) && Running(s, r) && s.attempts[r].phase.Judging?
    requires var c := s.attempts[r].phase.seen;
      c in s.attempts && s.attempts[c].proc in s.procs && s.attempts[r].proc in s.procs && JudgedDead(s, r, c)
    ensures Breakable(s)
  {
    var s1 := Step(s, Act(r));
    var s2 := Step(s1, Act(r));
    var s3 := Step(s2, Act(r));
    var s4 := Step(s3, Act(r));
    var s5 := Step(s4, Act(r));
    assert Holds(s5, n) && Holds(s5, r);
    assert Quiet(s5, []) && After(s5, []) == s5;
    BreakableBefore(s4, Act(r));
    BreakableBefore(s3, Act(r));
    BreakableBefore(s2, Act(r));
    BreakableBefore(s1, Act(r));
    BreakableBefore(s, Act(r));
  }

  predicate JudgesTheDead(s: State, r: Id) {
    Running(s, r) && s.attempts[r].phase.Judging? && s.attempts[r].phase.seen in s.attempts
    && s.attempts[s.attempts[r].phase.seen].proc in s.procs && JudgedDead(s, r, s.attempts[r].phase.seen)
  }

  lemma NewcomerIsRobbed(s: State, r: Id, n: Id)
    requires JudgesTheDead(s, r) && s.file.None?
    requires n != r && Running(s, n) && s.attempts[n].phase == Starting
    ensures Breakable(s)
  {
    var s1 := Step(s, Act(n));
    var s2 := Step(s1, Act(n));
    assert forall q :: PidInUse(s2, q) ==> PidInUse(s, q);
    StolenFile(s2, r, n);
    BreakableBefore(s1, Act(n));
    BreakableBefore(s, Act(n));
  }

  lemma NewcomerBegins(s: State, r: Id, p: Id, n: Id)
    requires JudgesTheDead(s, r) && s.file.None? && Alive(s, p) && n !in s.attempts
    ensures Breakable(s)
  {
    var s1 := Step(s, Begin(n, p));
    assert forall q :: PidInUse(s1, q) ==> PidInUse(s, q);
    NewcomerIsRobbed(s1, r, n);
    BreakableBefore(s, Begin(n, p));
  }

  /** With the file gone and its maker dead, a new process takes the lock before the verdict falls. */
  lemma NewcomerArrives(s: State, r: Id, p: Id, pid: int, n: Id)
    requires JudgesTheDead(s, r) && s.file.None? && n !in s.attempts
    requires var dead := s.procs[s.attempts[s.attempts[r].phase.seen].proc].pid; !PidInUse(s, dead) && pid != dead
    requires p !in s.procs && !PidInUse(s, pid)
    ensures Breakable(s)
  {
    var s1 := Step(s, Spawn(p, pid, false));
    assert forall q :: Alive(s1, q) ==> q == p || Alive(s, q);
    NewcomerBegins(s1, r, p, n);
    BreakableBefore(s, Spawn(p, pid, false));
  }

  lemma FreshPid(s: State) returns (pid: int)
    ensures forall p :: p in s.procs ==> s.procs[p].pid < pid
  {
    var pids := set p | p in s.procs :: s.procs[p].pid;
    pid := Fresh(pids);
    assert forall p :: p in s.procs ==> s.procs[p].pid in pids;
  }

  lemma MakerExits(s: State, r: Id, c: Id, p: Id, pid: int, n: Id)
    requires ProcsOk(s) && JudgesAnother(s, r, c) && Running(s, c) && s.file.None?
    requires p !in s.procs && n !in s.attempts && forall q :: q in s.procs ==> s.procs[q].pid < pid
    ensures Breakable(s)
  {
    var owner := s.attempts[c].proc;
    var s1 := Step(s, Crash(owner));
    assert forall q :: Alive(s1, q) ==> q != owner && Alive(s, q) && s1.procs[q].pid == s.procs[q].pid;
    NewcomerArrives(s1, r, p, pid, n);
    BreakableBefore(s, Crash(owner));
  }

  /** Once the judged record is released, its maker's process may exit: the verdict is then that it is dead. */
  lemma ReleasedRecordBreaks(s: State, r: Id, c: Id)
    requires ProcsOk(s) && JudgesAnother(s, r, c) && Running(s, c) && s.file.None?
    ensures Breakable(s)
  {
    var p := Fresh(s.procs.Keys);
    var pid := FreshPid(s);
    var n := Fresh(s.attempts.Keys);
    MakerExits(s, r, c, p, pid, n);
  }

  /** A step opens the lock to two holders exactly when it releases a record that another process is judging. */
  lemma BreaksIffReleasedUnderJudgement(s: State, act: Action)
    requires Inv(s)
    ensures Breakable(Step(s, act)) <==> ReleasesUnderJudgement(s, act)
  {
    if ReleasesUnderJudgement(s, act) {
      var r :| r in s.attempts && JudgesAnother(s, r, act.a);
      ProcsStayOk(s, act);
      ReleasedRecordBreaks(Step(s, act), r, act.a);
    } else {
      StepKeepsInv(s, act);
      forall acts | Quiet(Step(s, act), acts)
        ensures !TwoHolders(After(Step(s, act), acts))
      {
        QuietRunsAreSafe(Step(s, act), acts);
        assert forall a :: Holds(After(Step(s, act), acts), a) ==> Owns(After(Step(s, act), acts), a);
      }
    }
  }

  /** Such a release can happen: the state in which an owner is about to remove a record that another judges. */
  lemma ReleaseUnderJudgementIsReachable() returns (acts: seq<Action>, act: Action)
    ensures Quiet(Initial, acts) && ReleasesUnderJudgement(After(Initial, acts), act)
  {
    var s1 := Step(Initial, Spawn(1, 11, false));
    var s2 := Step(s1, Spawn(2, 12, false));
    var s3 := Step(s2, Begin(1, 1));
    var s4 := Step(s3, Act(1));
    var s5 := Step(s4, Act(1));
    var s6 := Step(s5, Begin(2, 2));
    var s7 := Step(s6, Act(2));
    var s8 := Step(s7, Act(2));
    var s9 := Step(s8, Act(2));
    var s10 := Step(s9, Act(1));
    act := Act(1);
    assert JudgesAnother(s10, 2, 1);
    acts := [];
    acts := Prefixed(s9, Act(1), acts);
    acts := Prefixed(s8, Act(2), acts);
    acts := Prefixed(s7, Act(2), acts);
    acts := Prefixed(s6, Act(2), acts);
    acts := Prefixed(s5, Begin(2, 2), acts);
    acts := Prefixed(s4, Act(1), acts);
    acts := Prefixed(s3, Act(1), acts);
    acts := Prefixed(s2, Begin(1, 1), acts);
    acts := Prefixed(s1, Spawn(2, 12, false), acts);
    acts := Prefixed(Initial, Spawn(1, 11, false), acts);
  }

  lemma Prefixed(s: State, act: Action, rest: seq<Action>) returns (acts: seq<Action>)
    requires !ReleasesUnderJudgement(s, act) && Quiet(Step(s, act), rest)
    ensures acts == [act] + rest && Quiet(s, acts) && After(s, acts) == After(Step(s, act), rest)
  {
    acts := [act] + rest;
    assert acts[1..] == rest;
  }
}
