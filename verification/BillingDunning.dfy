/** The grace period over many maintenance ticks. */
module BillingDunning {
  import opened Common
  import opened BillingTypes
  import opened BillingSnapshot

  /** A row in its grace period since `since`. */
  predicate InGrace(r: Row, since: Time) {
    r.status.PastDue? && r.pastDueAt == Some(since) && r.dunning.Some? && r.dunning.value in {0, 3, 6}
  }

  function Ticks(r: Row, ticks: seq<Time>): Row
    decreases |ticks|
  {
    if ticks == [] then r else Ticks(AdvanceDunning(r, ticks[0]), ticks[1..])
  }

  /** The highest checkpoint due at one instant. */
  function StageDue(since: Time, now: Time): int {
    if now >= since + 6 * DAY then 6 else if now >= since + 3 * DAY then 3 else 0
  }

  /** The highest checkpoint due at any of the ticks, or already passed. */
  function StageAfter(stage: int, since: Time, ticks: seq<Time>): int
    decreases |ticks|
  {
    if ticks == [] then stage
    else StageAfter(if StageDue(since, ticks[0]) > stage then StageDue(since, ticks[0]) else stage, since, ticks[1..])
  }

  function Count(log: seq<Action>, a: Action): nat {
    if log == [] then 0 else Count(log[..|log| - 1], a) + if log[|log| - 1] == a then 1 else 0
  }

  lemma CountAppend(log: seq<Action>, b: Action, a: Action)
    ensures Count(log + [b], a) == Count(log, a) + if a == b then 1 else 0
  {
    assert (log + [b])[..|log|] == log;
  }

  /** One tick before day 7: the stage rises to what is due now, audited if it rose. */
  lemma OneTick(r: Row, since: Time, now: Time)
    requires InGrace(r, since) && now < since + GRACE
    ensures var r1 := AdvanceDunning(r, now);
            && r1 == r.(dunning := Some(StageAfter(r.dunning.value, since, [now])), log := r1.log)
            && InGrace(r1, since) && r.dunning.value <= r1.dunning.value
            && (forall a :: Count(r1.log, a) ==
                  Count(r.log, a) + if r1.dunning != r.dunning && a == DunningCheckpoint(r1.dunning.value) then 1 else 0)
  {
    var r1 := AdvanceDunning(r, now);
    if r1.dunning != r.dunning {
      forall a ensures Count(r1.log, a) == Count(r.log, a) + if a == DunningCheckpoint(r1.dunning.value) then 1 else 0 {
        CountAppend(r.log, DunningCheckpoint(r1.dunning.value), a);
      }
    }
  }

  /** Before day 7: whatever the ticks, their number and their order, the stage is the
      highest due at any of them, nothing else of the row moves, and no checkpoint is
      audited twice: the one reached exactly once, none outside the stages moved over. */
  lemma {:induction false} StageIsTickIndependent(r: Row, since: Time, ticks: seq<Time>)
    requires InGrace(r, since) && forall i :: 0 <= i < |ticks| ==> ticks[i] < since + GRACE
    ensures var r' := Ticks(r, ticks);
            && r' == r.(dunning := Some(StageAfter(r.dunning.value, since, ticks)), log := r'.log)
            && InGrace(r', since) && r.dunning.value <= r'.dunning.value
            && (forall s :: Count(r'.log, DunningCheckpoint(s)) <= Count(r.log, DunningCheckpoint(s)) + 1)
            && (forall s :: s <= r.dunning.value || s > r'.dunning.value ==>
                  Count(r'.log, DunningCheckpoint(s)) == Count(r.log, DunningCheckpoint(s)))
            && (r'.dunning.value > r.dunning.value ==>
                  Count(r'.log, DunningCheckpoint(r'.dunning.value)) == Count(r.log, DunningCheckpoint(r'.dunning.value)) + 1)
            && Count(r'.log, WasExpired) == Count(r.log, WasExpired)
    decreases |ticks|
  {
    hide AdvanceDunning, Count;
    if ticks != [] {
      var r1 := AdvanceDunning(r, ticks[0]);
      OneTick(r, since, ticks[0]);
      StageIsTickIndependent(r1, since, ticks[1..]);
    }
  }

  lemma {:induction false} StageAfterIsDueAtLast(stage: int, since: Time, ticks: seq<Time>)
    requires ticks != [] && stage in {0, 3, 6} && stage <= StageDue(since, ticks[0])
    requires forall i, j :: 0 <= i < j < |ticks| ==> ticks[i] <= ticks[j]
    ensures StageAfter(stage, since, ticks) == StageDue(since, ticks[|ticks| - 1])
    decreases |ticks|
  {
    if |ticks| > 1 {
      assert ticks[0] <= ticks[1] && ticks[1..][0] == ticks[1];
      assert ticks[1..][|ticks| - 2] == ticks[|ticks| - 1];
      StageAfterIsDueAtLast(StageDue(since, ticks[0]), since, ticks[1..]);
    }
  }

  /** For non-decreasing ticks of one fresh episode, the stage is the one due at the last tick. */
  lemma StageIsDueAtLastTick(r: Row, since: Time, ticks: seq<Time>)
    requires InGrace(r, since) && r.dunning == Some(0) && ticks != []
    requires forall i, j :: 0 <= i < j < |ticks| ==> ticks[i] <= ticks[j]
    requires ticks[|ticks| - 1] < since + GRACE
    ensures Ticks(r, ticks).dunning == Some(StageDue(since, ticks[|ticks| - 1]))
  {
    forall i | 0 <= i < |ticks| ensures ticks[i] < since + GRACE {
      if i < |ticks| - 1 { assert ticks[i] <= ticks[|ticks| - 1]; }
    }
    StageIsTickIndependent(r, since, ticks);
    StageAfterIsDueAtLast(0, since, ticks);
  }

  lemma {:induction false} ExpiredIgnoresTicks(r: Row, ticks: seq<Time>)
    requires r.status.Expired?
    ensures Ticks(r, ticks) == r
  {
    if ticks != [] { ExpiredIgnoresTicks(r, ticks[1..]); }
  }

  /** The row expires, with its grace columns cleared and exactly one expiry audit,
      if and only if some tick falls on or after day 7. */
  lemma {:induction false} ExpiresExactlyAtDaySeven(r: Row, since: Time, ticks: seq<Time>)
    requires InGrace(r, since)
    ensures var r' := Ticks(r, ticks);
            if exists i :: 0 <= i < |ticks| && ticks[i] >= since + GRACE
            then r'.status.Expired? && r'.pastDueAt.None? && r'.dunning.None? && Count(r'.log, WasExpired) == Count(r.log, WasExpired) + 1
            else InGrace(r', since)
    decreases |ticks|
  {
    if i :| 0 <= i < |ticks| && ticks[i] >= since + GRACE {
      var r1 := AdvanceDunning(r, ticks[0]);
      if ticks[0] >= since + GRACE {
        CountAppend(r.log, WasExpired, WasExpired);
        ExpiredIgnoresTicks(r1, ticks[1..]);
      } else {
        if r1 != r { CountAppend(r.log, DunningCheckpoint(r1.dunning.value), WasExpired); }
        assert ticks[1..][i - 1] == ticks[i];
        ExpiresExactlyAtDaySeven(r1, since, ticks[1..]);
      }
    } else {
      StageIsTickIndependent(r, since, ticks);
    }
  }

  /** Expiry and a terminal snapshot commute - same status, same grace columns, one
      expiry audit - exactly when the snapshot too is on or after day 7. */
  lemma ExpiryCommutesWithTerminal(r: Row, since: Time, tick: Time, snapshot: Time)
    requires InGrace(r, since) && tick >= since + GRACE
    ensures var expiryFirst := ApplyTerminal(AdvanceDunning(r, tick), snapshot);
            var terminalFirst := AdvanceDunning(ApplyTerminal(r, snapshot), tick);
            && (expiryFirst == terminalFirst <==> snapshot >= since + GRACE)
            && (snapshot < since + GRACE ==> expiryFirst.status.Expired? && terminalFirst.status.Cancelled?)
            && Count(expiryFirst.log, WasExpired) == Count(r.log, WasExpired) + 1
            && expiryFirst.pastDueAt.None? && expiryFirst.dunning.None? && terminalFirst.pastDueAt.None? && terminalFirst.dunning.None?
  {
    CountAppend(r.log, WasExpired, WasExpired);
  }
}
