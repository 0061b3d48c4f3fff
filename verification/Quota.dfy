/** Quota reservation against concurrent status, plan and period changes, under the
    row locks the code takes: a transition locks the Subscription row, then the
    current UsageRecord; a reserver locks only the UsageRecord. Reads see what is
    committed, and any number of both kinds interleave statement by statement. */
module Quota {
  import opened Common

  type Thread = nat

  datatype Period = Period(start: int, end: int)

  /** What a reservation reads of the Subscription row. */
  datatype Sub = Sub(active: bool, quota: nat, period: Option<Period>)

  datatype Pc =
    | Idle
    // a reserver
    | Saw(p: Period) | Locked(p: Period) | Checked(p: Period) | Reserved(p: Period) | Refused(p: Period)
    // a transition
    | WantSub | HasSub | HasUsage | Written(row: Sub, opens: set<Period>) | WantsMore(row: Sub, opens: set<Period>, more: Period)

  /** The committed rows, the locks, the threads, and one entry per RESERVED that committed. */
  datatype World = World(
    sub: Sub, usage: map<Period, nat>,
    subLock: Option<Thread>, usageLock: map<Period, Thread>,
    pcs: map<Thread, Pc>, grants: multiset<Period>)

  datatype Step =
    | See(t: Thread, now: int) | LockUsage(t: Thread) | Recheck(t: Thread, now: int) | Increment(t: Thread)
    | CommitReservation(t: Thread) | Rollback(t: Thread)
    | Begin(t: Thread) | LockSub(t: Thread) | LockCurrent(t: Thread) | Write(t: Thread, row: Sub, opens: set<Period>)
    | AskMore(t: Thread, p: Period) | LockMore(t: Thread) | CommitTransition(t: Thread)

  function PcOf(w: World, t: Thread): Pc { if t in w.pcs then w.pcs[t] else Idle }

  predicate Entitled(s: Sub, now: int) {
    s.active && s.period.Some? && now < s.period.value.end
  }

  /** Another thread holds the lock on this UsageRecord. */
  predicate Blocked(w: World, t: Thread, p: Period) {
    p in w.usageLock && w.usageLock[p] != t
  }

  function At(w: World, t: Thread, pc: Pc): World { w.(pcs := w.pcs[t := pc]) }

  /** The end of a transaction: every lock the thread holds goes. */
  function Release(w: World, t: Thread): World {
    w.(subLock := if w.subLock == Some(t) then None else w.subLock,
       usageLock := map p | p in w.usageLock && w.usageLock[p] != t :: w.usageLock[p],
       pcs := w.pcs[t := Idle])
  }

  function Next(w: World, s: Step): World {
    match s
    case See(t, now) =>
      if PcOf(w, t).Idle? && Entitled(w.sub, now) then At(w, t, Saw(w.sub.period.value)) else w
    case LockUsage(t) =>
      var pc := PcOf(w, t);
      if !pc.Saw? then w
      else if pc.p !in w.usage then At(w, t, Idle)
      else if Blocked(w, t, pc.p) then w
      else At(w.(usageLock := w.usageLock[pc.p := t]), t, Locked(pc.p))
    case Recheck(t, now) =>
      var pc := PcOf(w, t);
      if !pc.Locked? || pc.p !in w.usage then w
      else if Entitled(w.sub, now) && w.sub.period == Some(pc.p) && w.usage[pc.p] < w.sub.quota then At(w, t, Checked(pc.p))
      else At(w, t, Refused(pc.p))
    case Increment(t) => if PcOf(w, t).Checked? then At(w, t, Reserved(PcOf(w, t).p)) else w
    case CommitReservation(t) =>
      var pc := PcOf(w, t);
      if pc.Reserved? && pc.p in w.usage
      then Release(w.(usage := w.usage[pc.p := w.usage[pc.p] + 1], grants := w.grants + multiset{pc.p}), t)
      else if pc.Refused? then Release(w, t)
      else w
    case Rollback(t) => Release(w, t)
    case Begin(t) => if PcOf(w, t).Idle? then At(w, t, WantSub) else w
    case LockSub(t) => if PcOf(w, t).WantSub? && w.subLock.None? then At(w.(subLock := Some(t)), t, HasSub) else w
    case LockCurrent(t) =>
      if !PcOf(w, t).HasSub? then w
      else if w.sub.period.None? || w.sub.period.value !in w.usage then At(w, t, HasUsage)
      else if Blocked(w, t, w.sub.period.value) then w
      else At(w.(usageLock := w.usageLock[w.sub.period.value := t]), t, HasUsage)
    case Write(t, row, opens) => if PcOf(w, t).HasUsage? then At(w, t, Written(row, opens)) else w
    case AskMore(t, p) =>
      var pc := PcOf(w, t);
      if pc.Written? then At(w, t, WantsMore(pc.row, pc.opens, p)) else w
    case LockMore(t) =>
      var pc := PcOf(w, t);
      if !pc.WantsMore? || Blocked(w, t, pc.more) then w
      else At(w.(usageLock := w.usageLock[pc.more := t]), t, Written(pc.row, pc.opens))
    case CommitTransition(t) =>
      var pc := PcOf(w, t);
      if !pc.Written? then w
      else Release(w.(sub := pc.row, usage := (map p | p in pc.opens :: 0) + w.usage), t)
  }

  // --- the invariant ---

  predicate Reserving(pc: Pc, p: Period) {
    (pc.Locked? || pc.Checked? || pc.Reserved? || pc.Refused?) && pc.p == p
  }

  predicate OwnsSub(pc: Pc) { pc.HasSub? || pc.HasUsage? || pc.Written? || pc.WantsMore? }

  predicate Guards(pc: Pc) { pc.HasUsage? || pc.Written? || pc.WantsMore? }

  /** What each thread's position means for the committed state and the locks. */
  predicate ThreadInv(w: World, t: Thread) {
    var pc := PcOf(w, t);
    && (OwnsSub(pc) <==> w.subLock == Some(t))
    && ((pc.Locked? || pc.Checked? || pc.Reserved? || pc.Refused?) ==>
          pc.p in w.usageLock && w.usageLock[pc.p] == t && pc.p in w.usage)
    && (Guards(pc) && w.sub.period.Some? && w.sub.period.value in w.usage ==>
          w.sub.period.value in w.usageLock && w.usageLock[w.sub.period.value] == t)
    && (pc.Checked? || pc.Reserved? ==>
          w.sub.active && w.sub.period == Some(pc.p) && w.usage[pc.p] < w.sub.quota)
  }

  ghost predicate Inv(w: World) {
    && (forall t :: ThreadInv(w, t))
    && (forall p :: p in w.usageLock ==> Reserving(PcOf(w, w.usageLock[p]), p) || Guards(PcOf(w, w.usageLock[p])))
    && (forall p :: if p in w.usage then w.usage[p] == w.grants[p] else p !in w.grants)
  }

  lemma ThreadKnown(w: World, u: Thread)
    requires Inv(w)
    ensures ThreadInv(w, u)
  {
    hide ThreadInv;
  }

  /** A thread that holds a UsageRecord excludes the transition that would leave its period. */
  lemma CommitKeepsThread(w: World, s: Step, u: Thread)
    requires Inv(w) && (s.CommitTransition? || s.CommitReservation? || s.Rollback?)
    ensures ThreadInv(Next(w, s), u)
  {
    hide Inv;
    ThreadKnown(w, u);
    ThreadKnown(w, s.t);
  }

  lemma SubLockKeepsThread(w: World, s: Step, u: Thread)
    requires Inv(w) && (s.LockSub? || s.LockCurrent?)
    ensures ThreadInv(Next(w, s), u)
  {
    hide Release, Inv;
    ThreadKnown(w, u);
    ThreadKnown(w, s.t);
  }

  lemma UsageLockKeepsThread(w: World, s: Step, u: Thread)
    requires Inv(w) && (s.LockUsage? || s.LockMore?)
    ensures ThreadInv(Next(w, s), u)
  {
    hide Release, Inv;
    ThreadKnown(w, u);
    ThreadKnown(w, s.t);
  }

  lemma MoveKeepsThread(w: World, s: Step, u: Thread)
    requires Inv(w) && (s.See? || s.Recheck? || s.Increment? || s.Begin? || s.Write? || s.AskMore?)
    ensures ThreadInv(Next(w, s), u)
  {
    hide Release, Inv;
    ThreadKnown(w, u);
    ThreadKnown(w, s.t);
  }

  lemma EndKeepsOwners(w: World, s: Step, p: Period)
    requires Inv(w) && p in Next(w, s).usageLock && (s.CommitTransition? || s.CommitReservation? || s.Rollback?)
    ensures var w' := Next(w, s); Reserving(PcOf(w', w'.usageLock[p]), p) || Guards(PcOf(w', w'.usageLock[p]))
  {
    hide ThreadInv, Inv, Entitled;
    OwnerKnown(w, p);
  }

  lemma LocksKeepOwners(w: World, s: Step, p: Period)
    requires Inv(w) && p in Next(w, s).usageLock && !(s.CommitTransition? || s.CommitReservation? || s.Rollback?)
    ensures var w' := Next(w, s); Reserving(PcOf(w', w'.usageLock[p]), p) || Guards(PcOf(w', w'.usageLock[p]))
  {
    hide ThreadInv, Inv, Entitled, Release;
    OwnerKnown(w, p);
  }

  lemma OwnerKnown(w: World, p: Period)
    requires Inv(w)
    ensures p in w.usageLock ==> Reserving(PcOf(w, w.usageLock[p]), p) || Guards(PcOf(w, w.usageLock[p]))
  {
    hide ThreadInv;
  }

  lemma UseStaysCounted(w: World, s: Step, p: Period)
    requires Inv(w)
    ensures var w' := Next(w, s); if p in w'.usage then w'.usage[p] == w'.grants[p] else p !in w'.grants
  {
    hide Inv, PcOf;
    CountKnown(w, p);
  }

  lemma CountKnown(w: World, p: Period)
    requires Inv(w)
    ensures if p in w.usage then w.usage[p] == w.grants[p] else p !in w.grants
  {
    hide ThreadInv;
  }

  /** Every step by any thread keeps the invariant: a reservation that passed its
      re-check stays valid until it commits. */
  lemma NextKeeps(w: World, s: Step)
    requires Inv(w)
    ensures Inv(Next(w, s))
  {
    hide Next, ThreadInv, Reserving, Guards;
    forall t ensures ThreadInv(Next(w, s), t) {
      if s.CommitTransition? || s.CommitReservation? || s.Rollback? { CommitKeepsThread(w, s, t); }
      else if s.LockSub? || s.LockCurrent? { SubLockKeepsThread(w, s, t); }
      else if s.LockUsage? || s.LockMore? { UsageLockKeepsThread(w, s, t); }
      else { MoveKeepsThread(w, s, t); }
    }
    forall p | p in Next(w, s).usageLock
      ensures Reserving(PcOf(Next(w, s), Next(w, s).usageLock[p]), p) || Guards(PcOf(Next(w, s), Next(w, s).usageLock[p]))
    {
      if s.CommitTransition? || s.CommitReservation? || s.Rollback? { EndKeepsOwners(w, s, p); } else { LocksKeepOwners(w, s, p); }
    }
    forall p ensures if p in Next(w, s).usage then Next(w, s).usage[p] == Next(w, s).grants[p] else p !in Next(w, s).grants {
      UseStaysCounted(w, s, p);
    }
  }

  function Run(w: World, steps: seq<Step>): World
    decreases |steps|
  {
    if steps == [] then w else Run(Next(w, steps[0]), steps[1..])
  }

  /** Nothing runs, nothing is locked, and no quota has been used yet. */
  predicate Initial(w: World) {
    w.subLock.None? && w.usageLock == map[] && w.pcs == map[] && w.grants == multiset{} &&
    forall p :: p in w.usage ==> w.usage[p] == 0
  }

  lemma {:induction false} RunKeeps(w: World, steps: seq<Step>)
    requires Inv(w)
    ensures Inv(Run(w, steps))
    decreases |steps|
  {
    hide Inv, Next;
    if steps != [] {
      NextKeeps(w, steps[0]);
      RunKeeps(Next(w, steps[0]), steps[1..]);
    }
  }

  // --- the clock ---

  /** A reserver goes on only from an ACTIVE row whose period has not ended by its own
      reading of the clock. */
  lemma SeesExactly(w: World, t: Thread, now: int)
    requires PcOf(w, t) == Idle
    ensures PcOf(Next(w, See(t, now)), t) ==
              if w.sub.active && w.sub.period != None && now < w.sub.period.value.end then Saw(w.sub.period.value) else Idle
  {
  }

  /** The re-check under the lock, at its own time, passes exactly for an ACTIVE row
      still on that period, unended, with quota left. */
  lemma ChecksExactly(w: World, t: Thread, p: Period, now: int)
    requires PcOf(w, t) == Locked(p) && p in w.usage
    ensures PcOf(Next(w, Recheck(t, now)), t) ==
              if w.sub.active && w.sub.period == Some(p) && now < p.end && w.usage[p] < w.sub.quota then Checked(p) else Refused(p)
  {
  }

  /** The step is the re-check that thread t passed for p, before p ended. */
  predicate PassesBeforeEnd(s: Step, t: Thread, p: Period) { s.Recheck? && s.t == t && s.now < p.end }

  predicate Passed(pc: Pc) { pc.Checked? || pc.Reserved? }

  lemma PassedStep(w: World, s: Step, t: Thread)
    requires Passed(PcOf(Next(w, s), t))
    ensures var p := PcOf(Next(w, s), t).p;
            PassesBeforeEnd(s, t, p) || (Passed(PcOf(w, t)) && PcOf(w, t).p == p)
  {
  }

  /** In every run, whoever is about to commit RESERVED for a period re-checked it at
      a time before the period's end. */
  lemma {:induction false} ReservedBeforeEnd(w: World, steps: seq<Step>, t: Thread)
    requires Passed(PcOf(Run(w, steps), t))
    ensures var p := PcOf(Run(w, steps), t).p;
            || (exists s :: s in steps && PassesBeforeEnd(s, t, p))
            || (Passed(PcOf(w, t)) && PcOf(w, t).p == p)
    decreases |steps|
  {
    hide Next, PassesBeforeEnd;
    if steps != [] {
      var p := PcOf(Run(w, steps), t).p;
      ReservedBeforeEnd(Next(w, steps[0]), steps[1..], t);
      if s :| s in steps[1..] && PassesBeforeEnd(s, t, p) {
        assert s in steps;
      } else {
        PassedStep(w, steps[0], t);
        assert steps[0] in steps;
      }
    }
  }

  // --- the promises ---

  /** Whenever RESERVED commits, the committed row is ACTIVE on exactly that period
      and its use, the new unit included, is within the quota of the plan in force;
      and t read the clock before the period's end when it re-checked. */
  lemma ReservedIsEntitled(w: World, steps: seq<Step>, t: Thread)
    requires Initial(w) && PcOf(Run(w, steps), t).Reserved?
    ensures var before := Run(w, steps);
            var p := PcOf(before, t).p;
            var after := Next(before, CommitReservation(t));
            && after.sub == before.sub && after.sub.active && after.sub.period == Some(p)
            && p in before.usage && p in after.usage && after.usage[p] == before.usage[p] + 1 <= after.sub.quota
            && after.grants == before.grants + multiset{p}
            && exists s :: s in steps && PassesBeforeEnd(s, t, p)
  {
    RunKeeps(w, steps);
    ReservedBeforeEnd(w, steps, t);
    assert ThreadInv(Run(w, steps), t);
  }

  /** A record's use is the number of RESERVED results that committed for its period. */
  lemma UseCountsReservations(w: World, steps: seq<Step>, p: Period)
    requires Initial(w) && p in Run(w, steps).usage
    ensures Run(w, steps).usage[p] == Run(w, steps).grants[p]
  {
    RunKeeps(w, steps);
  }

  /** Use never decreases and no record disappears, whatever status, plan and period
      changes come between - a recovery into the same period finds its count again. */
  lemma {:induction false} UseNeverDecreases(w: World, steps: seq<Step>, p: Period)
    requires p in w.usage
    ensures p in Run(w, steps).usage && w.usage[p] <= Run(w, steps).usage[p]
    decreases |steps|
  {
    if steps != [] {
      var w1 := Next(w, steps[0]);
      assert p in w1.usage && w.usage[p] <= w1.usage[p];
      UseNeverDecreases(w1, steps[1..], p);
    }
  }

  // --- no deadlock ---

  /** The UsageRecord lock a thread's next statement asks for. */
  function Wants(w: World, t: Thread): Option<Period> {
    match PcOf(w, t)
    case Saw(p) => if p in w.usage then Some(p) else None
    case HasSub => if w.sub.period.Some? && w.sub.period.value in w.usage then w.sub.period else None
    case WantsMore(_, _, more) => Some(more)
    case _ => None
  }

  /** The thread is in a transaction and its next statement need not wait for a lock. */
  predicate CanMove(w: World, t: Thread) {
    && !PcOf(w, t).Idle?
    && (PcOf(w, t).WantSub? ==> w.subLock.None?)
    && (Wants(w, t).Some? ==> !Blocked(w, t, Wants(w, t).value))
  }

  /** The lock order admits no deadlock: if any transaction is open, some open
      transaction can take its next step. */
  lemma NoDeadlock(w: World, steps: seq<Step>, t: Thread)
    requires Initial(w) && !PcOf(Run(w, steps), t).Idle?
    ensures exists u :: CanMove(Run(w, steps), u)
  {
    RunKeeps(w, steps);
    var now := Run(w, steps);
    if CanMove(now, t) { return; }
    var owner := BlockerMoves(now, t);
  }

  /** Following the chain of waits from t ends, after at most two locks, at a thread that can move. */
  lemma BlockerMoves(w: World, t: Thread) returns (u: Thread)
    requires Inv(w) && !PcOf(w, t).Idle?
    ensures CanMove(w, u)
  {
    u := t;
    if !CanMove(w, u) && PcOf(w, u).WantSub? {
      u := w.subLock.value;
      assert ThreadInv(w, u);
    }
    if !CanMove(w, u) {
      var p := Wants(w, u).value;
      u := w.usageLock[p];
      assert Reserving(PcOf(w, u), p) || Guards(PcOf(w, u));
      assert ThreadInv(w, u);
      if !CanMove(w, u) {
        var q := PcOf(w, u).more;
        var v := w.usageLock[q];
        assert Reserving(PcOf(w, v), q) || Guards(PcOf(w, v));
        assert ThreadInv(w, v);
        u := v;
      }
    }
  }

  // --- one reservation, run alone ---

  datatype Outcome = Granted | NotEntitled | Exhausted

  /** `later` is the clock at the re-check after the lock was granted. */
  function Reserve(sub: Sub, usage: map<Period, nat>, now: int, later: int): (map<Period, nat>, Outcome) {
    if !Entitled(sub, now) || sub.period.value !in usage || !Entitled(sub, later) then (usage, NotEntitled)
    else
      var p := sub.period.value;
      if usage[p] >= sub.quota then (usage, Exhausted) else (usage[p := usage[p] + 1], Granted)
  }

  /** Granted exactly on an ACTIVE row, by both readings before its opened period's
      end, with quota left: that period's use goes up by one. EXHAUSTED differs only in the quota. */
  lemma ReserveExactly(sub: Sub, usage: map<Period, nat>, now: int, later: int)
    ensures var (after, outcome) := Reserve(sub, usage, now, later);
            var entitled := sub.active && sub.period != None && sub.period.value in usage && now < sub.period.value.end && later < sub.period.value.end;
            && (outcome == Granted <==> entitled && usage[sub.period.value] < sub.quota)
            && (outcome == Exhausted <==> entitled && usage[sub.period.value] >= sub.quota)
            && after == if outcome == Granted then usage[sub.period.value := usage[sub.period.value] + 1] else usage
  {
  }

  class QuotaRows {
    var sub: Sub
    var usage: map<Period, nat>

    constructor (s: Sub, u: map<Period, nat>)
      ensures sub == s && usage == u
    {
      sub, usage := s, u;
    }

    /** Never creates a record: an unopened period answers NotEntitled. */
    method ReserveQuotaUnit(now: int, later: int) returns (outcome: Outcome)
      modifies this`usage
      ensures (usage, outcome) == Reserve(sub, old(usage), now, later)
    {
      if !Entitled(sub, now) { return NotEntitled; }
      var period := sub.period.value;
      if period !in usage { return NotEntitled; }
      if !Entitled(sub, later) { return NotEntitled; }
      if usage[period] >= sub.quota { return Exhausted; }
      usage := usage[period := usage[period] + 1];
      return Granted;
    }

    /** Insert-or-ignore: reopening the same period bounds finds the old count. */
    method ResetUsagePeriod(period: Period)
      modifies this`usage
      ensures usage == map[period := 0] + old(usage)
    {
      if period !in usage { usage := usage[period := 0]; }
      assert usage == map[period := 0] + old(usage);
    }
  }

  /** From the granted lock to the commit. */
  lemma LockedReservation(w: World, t: Thread, p: Period, later: int)
    requires PcOf(w, t) == Locked(p) && w.sub.period == Some(p) && p in w.usage
    ensures var after := Next(Next(Next(w, Recheck(t, later)), Increment(t)), CommitReservation(t));
            var granted := Entitled(w.sub, later) && w.usage[p] < w.sub.quota;
            && after.sub == w.sub
            && after.usage == (if granted then w.usage[p := w.usage[p] + 1] else w.usage)
            && after.grants == (if granted then w.grants + multiset{p} else w.grants)
  {
    hide Entitled, Release;
    var w1 := Next(w, Recheck(t, later));
    var w2 := Next(w1, Increment(t));
    assert PcOf(w2, t) == if Entitled(w.sub, later) && w.usage[p] < w.sub.quota then Reserved(p) else Refused(p);
    ReleaseKeepsRows(w2, t);
    ReleaseKeepsRows(w2.(usage := w2.usage[p := w2.usage[p] + 1], grants := w2.grants + multiset{p}), t);
  }

  lemma ReleaseKeepsRows(w: World, t: Thread)
    ensures Release(w, t).sub == w.sub && Release(w, t).usage == w.usage && Release(w, t).grants == w.grants
  {
  }

  lemma StuckReservation(w: World, t: Thread, later: int)
    requires PcOf(w, t).Idle?
    ensures Next(Next(Next(w, Recheck(t, later)), Increment(t)), CommitReservation(t)) == w
  {
  }

  /** With no other transaction open, the interleaved statements of a reservation
      commit exactly the sequential one, and a grant is counted exactly when it says so. */
  lemma AloneReservationIsSequential(w: World, t: Thread, now: int, later: int)
    requires w.usageLock == map[] && PcOf(w, t).Idle?
    ensures var w3 := Next(Next(Next(w, See(t, now)), LockUsage(t)), Recheck(t, later));
            var after := Next(Next(w3, Increment(t)), CommitReservation(t));
            var (usage, outcome) := Reserve(w.sub, w.usage, now, later);
            && after.usage == usage && after.sub == w.sub
            && after.grants == if outcome.Granted? then w.grants + multiset{w.sub.period.value} else w.grants
  {
    hide Release;
    var w1 := Next(w, See(t, now));
    var w2 := Next(w1, LockUsage(t));
    if Entitled(w.sub, now) && w.sub.period.value in w.usage {
      var p := w.sub.period.value;
      assert w1 == At(w, t, Saw(p));
      assert w2 == At(w1.(usageLock := w1.usageLock[p := t]), t, Locked(p));
      LockedReservation(w2, t, p, later);
    } else {
      assert PcOf(w2, t).Idle? && w2.sub == w.sub && w2.usage == w.usage && w2.grants == w.grants;
      StuckReservation(w2, t, later);
    }
    hide Next;
  }
}
