/** The Subscription object as the services use it: attributes set one at a time, a
    growing set of touched fields, and a save that writes only those fields. Every
    method is proved to leave the row the step functions describe, which also shows
    that no touched column is ever left out of a save. */
module BillingRecord {
  import opened Common
  import opened BillingTypes
  import opened BillingSnapshot
  import opened BillingCheckout

  datatype Field =
    | FStatus | FPlan | FPending | FCancelAtEnd | FPeriodStart | FPeriodEnd | FRef
    | FPastDueAt | FDunning | FProviderStatus | FSyncedAt
    | FRepl | FReplPlan | FReplExpires | FCommittedAt | FConfirmedAt | FRetired | FRetiredKind

  /** An UPDATE with update_fields: the named columns come from memory, the others
      stay. Audit rows, inbox marks, UsageRecords and stamps are written at once. */
  function Merge(db: Row, mem: Row, fields: set<Field>): Row {
    Row(if FStatus in fields then mem.status else db.status,
        if FPlan in fields then mem.plan else db.plan,
        if FPending in fields then mem.pending else db.pending,
        if FCancelAtEnd in fields then mem.cancelAtEnd else db.cancelAtEnd,
        if FPeriodStart in fields then mem.periodStart else db.periodStart,
        if FPeriodEnd in fields then mem.periodEnd else db.periodEnd,
        if FRef in fields then mem.ref else db.ref,
        if FPastDueAt in fields then mem.pastDueAt else db.pastDueAt,
        if FDunning in fields then mem.dunning else db.dunning,
        if FProviderStatus in fields then mem.providerStatus else db.providerStatus,
        if FSyncedAt in fields then mem.syncedAt else db.syncedAt,
        if FRepl in fields then mem.repl else db.repl,
        if FReplPlan in fields then mem.replPlan else db.replPlan,
        if FReplExpires in fields then mem.replExpires else db.replExpires,
        if FCommittedAt in fields then mem.committedAt else db.committedAt,
        if FConfirmedAt in fields then mem.confirmedAt else db.confirmedAt,
        if FRetired in fields then mem.retired else db.retired,
        if FRetiredKind in fields then mem.retiredKind else db.retiredKind,
        mem.log, mem.marks, mem.usage, mem.stamps)
  }

  /** Every column outside `fields` is the same in both rows. */
  predicate Covers(db: Row, mem: Row, fields: set<Field>) {
    && (FStatus in fields || mem.status == db.status)
    && (FPlan in fields || mem.plan == db.plan)
    && (FPending in fields || mem.pending == db.pending)
    && (FCancelAtEnd in fields || mem.cancelAtEnd == db.cancelAtEnd)
    && (FPeriodStart in fields || mem.periodStart == db.periodStart)
    && (FPeriodEnd in fields || mem.periodEnd == db.periodEnd)
    && (FRef in fields || mem.ref == db.ref)
    && (FPastDueAt in fields || mem.pastDueAt == db.pastDueAt)
    && (FDunning in fields || mem.dunning == db.dunning)
    && (FProviderStatus in fields || mem.providerStatus == db.providerStatus)
    && (FSyncedAt in fields || mem.syncedAt == db.syncedAt)
    && (FRepl in fields || mem.repl == db.repl)
    && (FReplPlan in fields || mem.replPlan == db.replPlan)
    && (FReplExpires in fields || mem.replExpires == db.replExpires)
    && (FCommittedAt in fields || mem.committedAt == db.committedAt)
    && (FConfirmedAt in fields || mem.confirmedAt == db.confirmedAt)
    && (FRetired in fields || mem.retired == db.retired)
    && (FRetiredKind in fields || mem.retiredKind == db.retiredKind)
  }

  lemma CoveredSaveIsWhole(db: Row, mem: Row, fields: set<Field>)
    requires Covers(db, mem, fields)
    ensures Merge(db, mem, fields) == mem
  {
  }

  // The checkpoints, latest first, and when each is due after the row went past due.
  const DUNNING_STAGES: seq<(int, int)> := [(6, 6 * DAY), (3, 3 * DAY)]

  const REPLACEMENT_FIELDS := {FRepl, FReplPlan, FReplExpires, FCommittedAt, FConfirmedAt}
  const RETIRED_FIELDS := {FRetired, FRetiredKind}

  class Subscription {
    // The attributes, and the committed row.
    var row: Row
    var saved: Row

    /** Every column that differs from the committed row is in `fields`. */
    ghost predicate Tracks(fields: set<Field>)
      reads this
    {
      Covers(saved, row, fields)
    }

    /** The row as just locked and read. */
    constructor (read: Row)
      ensures row == read && saved == read
    {
      row, saved := read, read;
    }

    /** save(update_fields=fields): nothing touched is left unsaved. */
    method Save(fields: set<Field>)
      requires Tracks(fields)
      modifies this`saved
      ensures saved == row
    {
      CoveredSaveIsWhole(saved, row, fields);
      saved := Merge(saved, row, fields);
    }

    method Record(action: Action)
      modifies this`row
      ensures row == Audit(old(row), action)
    {
      row := Audit(row, action);
    }

    // --- the paid-entitlement rule ---

    static method CurrentPeriodPaid(e: Entity, invoices: Option<seq<Invoice>>) returns (paid: Option<Invoice>)
      ensures paid == PeriodPaid(e, invoices)
    {
      if invoices.None? || e.id.None? || e.currentStart.None? { return None; }
      var list := invoices.value;
      for i := 0 to |list|
        invariant FirstQualifying(e.id.value, e.currentStart.value, list) == FirstQualifying(e.id.value, e.currentStart.value, list[i..])
      {
        if Qualifies(e.id.value, e.currentStart.value, list[i]) { return Some(list[i]); }
        assert list[i..][1..] == list[i + 1..];
      }
      return None;
    }

    // --- the main snapshot ---

    method TakePlan(newPlan: Plan, oldPending: Option<Plan>, period: Option<(Time, Time)>, fields: set<Field>) returns (touched: set<Field>)
      requires Tracks(fields) && oldPending == row.pending
      modifies this`row
      ensures var taken := BillingSnapshot.TakePlan(old(row), newPlan);
              row == if period.None? then taken else taken.(periodStart := Some(period.value.0), periodEnd := Some(period.value.1))
      ensures Tracks(touched)
    {
      row := row.(plan := newPlan);
      touched := fields + {FPlan};
      if oldPending.Some? && oldPending.value == newPlan {
        row := row.(pending := None);
        touched := touched + {FPending};
      }
      if period.Some? {
        row := row.(periodStart := Some(period.value.0), periodEnd := Some(period.value.1));
        touched := touched + {FPeriodStart, FPeriodEnd};
      }
    }

    method ClearGrace(fields: set<Field>) returns (touched: set<Field>)
      requires Tracks(fields)
      modifies this`row
      ensures row == BillingSnapshot.ClearGrace(old(row)) && Tracks(touched)
    {
      row := row.(pastDueAt := None, dunning := None);
      touched := fields + {FPastDueAt, FDunning};
    }

    method ApplyActive(e: Entity, invoices: Option<seq<Invoice>>, newPlan: Plan, fields: set<Field>, isSwitch: bool)
      returns (changed: bool, settled: bool, advanced: bool, touched: set<Field>)
      requires Tracks(fields)
      modifies this`row
      ensures Applied(row, changed, settled, advanced) == BillingSnapshot.ApplyActive(old(row), e, invoices, newPlan, isSwitch)
      ensures Tracks(touched)
    {
      touched := fields;
      var start, end := FromUnix(e.currentStart), FromUnix(e.currentEnd);
      if start.None? || end.None? || end.value <= start.value { return false, false, false, touched; }
      var paid := CurrentPeriodPaid(e, invoices);
      hide BillingSnapshot.TakePaidPeriod, PeriodPaid, FirstQualifying;
      var oldStatus, oldPlan, oldPending := row.status, row.plan, row.pending;
      if oldStatus.Active? && row.periodStart == start {
        changed := false;
        if oldPlan != newPlan {
          touched := TakePlan(newPlan, oldPending, None, touched);
          changed := true;
          Record(PlanChanged);
        } else if oldPending.Some? && oldPending.value == newPlan {
          row := row.(pending := None);
          touched := touched + {FPending};
          changed := true;
        }
        return changed, true, false, touched;
      }
      if paid.None? { return false, false, false, touched; }
      touched := TakePaidPeriod(newPlan, start.value, end.value, touched, isSwitch);
      return true, true, true, touched;
    }

    /** The proven-paid branch: plan, period and status, with the audit rows in order. */
    method TakePaidPeriod(newPlan: Plan, start: Time, end: Time, fields: set<Field>, isSwitch: bool) returns (touched: set<Field>)
      requires Tracks(fields)
      modifies this`row
      ensures row == BillingSnapshot.TakePaidPeriod(old(row), newPlan, start, end, isSwitch) && Tracks(touched)
    {
      var oldStatus, oldPlan := row.status, row.plan;
      touched := TakePlan(newPlan, row.pending, Some((start, end)), fields);
      if !oldStatus.Active? {
        row := row.(status := Active);
        touched := touched + {FStatus};
        if oldStatus.PastDue? {
          touched := ClearGrace(touched);
        } else {
          row := row.(cancelAtEnd := false);
          touched := touched + {FCancelAtEnd};
        }
        Record(if oldStatus.PastDue? then Recovered else Activated);
        if isSwitch && oldStatus.PastDue? && oldPlan != newPlan { Record(PlanChanged); }
      } else if oldPlan != newPlan {
        Record(PlanChanged);
      }
    }

    method ApplyPaymentFailed(now: Time, fields: set<Field>) returns (changed: bool, touched: set<Field>)
      requires Tracks(fields)
      modifies this`row
      ensures row == BillingSnapshot.ApplyPaymentFailed(old(row), now) && changed == (row != old(row))
      ensures Tracks(touched)
    {
      if !row.status.Active? { return false, fields; }
      row := row.(status := PastDue);
      row := row.(pastDueAt := Some(now));
      row := row.(dunning := Some(0));
      touched := fields + {FStatus, FPastDueAt, FDunning};
      Record(WentPastDue);
      changed := true;
    }

    method ApplyTerminal(now: Time, fields: set<Field>) returns (changed: bool, touched: set<Field>)
      requires Tracks(fields)
      modifies this`row
      ensures row == BillingSnapshot.ApplyTerminal(old(row), now) && changed == (row != old(row))
      ensures Tracks(touched)
    {
      touched := fields;
      if row.status.Active? {
        row := row.(status := Cancelled);
        touched := touched + {FStatus};
        Record(WasCancelled);
        return true, touched;
      }
      if row.status.PastDue? {
        var graceOver := row.pastDueAt.Some? && now >= row.pastDueAt.value + GRACE;
        row := row.(status := if graceOver then Expired else Cancelled);
        touched := touched + {FStatus};
        touched := ClearGrace(touched);
        Record(if graceOver then WasExpired else WasCancelled);
        return true, touched;
      }
      return false, touched;
    }

    // --- the replacement's departure ---

    method RetireReplacement(e: Entity, env: Env, fields: set<Field>) returns (touched: set<Field>)
      requires Tracks(fields) && row.repl.Some?
      modifies this`row
      ensures row == Retire(old(row), e, env) && Tracks(touched)
    {
      var target := if row.replPlan.Some? then row.replPlan else LookupPlan(env, e.planId);
      var departing := row.repl;
      touched := fields;
      row := row.(retired := departing, retiredKind := Some(AbandonedReplacement));
      row := row.(repl := None, replPlan := None, replExpires := None, committedAt := None, confirmedAt := None);
      if target.Some? && row.pending == target {
        row := row.(pending := None);
        touched := touched + {FPending};
      }
      touched := touched + RETIRED_FIELDS + REPLACEMENT_FIELDS;
      row := row.(marks := row.marks + [departing.value]);
      Record(ReplacementAbandoned);
    }

    method AbandonUnlessActive(test: AbandonTest, reread: Option<Entity>, env: Env, fields: set<Field>)
      returns (abandoned: bool, touched: set<Field>)
      requires Tracks(fields) && (reread.Some? ==> reread.value.status.Some?)
      modifies this`row
      ensures row == BillingSnapshot.AbandonUnlessActive(old(row), test, reread, env)
      ensures abandoned == Abandons(old(row), test, reread) && (!abandoned ==> row == old(row)) && Tracks(touched)
    {
      if row.repl.None? || row.committedAt.Some? { return false, fields; }
      if reread.None? || !Abandonable(test, reread.value.status.value) { return false, fields; }
      if row.retired.Some? { return false, fields; }
      touched := RetireReplacement(reread.value, env, fields);
      abandoned := true;
    }

    method ApplyByStatus(e: Entity, invoices: Option<seq<Invoice>>, found: Plan, env: Env, answer: Option<Entity>, fields: set<Field>)
      returns (changed: bool, settled: bool, advanced: bool, touched: set<Field>)
      requires Tracks(fields) && e.status.Some?
      modifies this`row
      ensures Applied(row, changed, settled, advanced) == SnapshotByStatus(old(row), e, invoices, found, env, answer)
      ensures Tracks(touched)
    {
      hide BillingSnapshot.ApplyActive, BillingSnapshot.ApplyPaymentFailed, BillingSnapshot.ApplyTerminal,
           BillingSnapshot.AbandonUnlessActive, Covers, Abandons;
      var status := e.status.value;
      changed, settled, advanced, touched := false, true, false, fields;
      if status.PActive? {
        changed, settled, advanced, touched := ApplyActive(e, invoices, found, touched, false);
      } else if status.PPending? || status.PHalted? {
        changed, touched := ApplyPaymentFailed(env.now, touched);
        if changed {
          var _, more := AbandonUnlessActive(WhenNotActive, Refetch(row, answer), env, touched);
          touched := more;
        }
      } else if Terminal(status) {
        if !CommittedDowngrade(row) {
          changed, touched := ApplyTerminal(env.now, touched);
          if changed {
            var _, more := AbandonUnlessActive(WhenNotActive, Refetch(row, answer), env, touched);
            touched := more;
          }
        }
      }
    }

    method ApplySnapshot(e: Entity, invoices: Option<seq<Invoice>>, started: Time, env: Env, answer: Option<Entity>)
      returns (changed: bool, settled: bool)
      requires saved == row
      modifies this
      ensures saved == row
      ensures var a := Snapshot(old(row), e, invoices, started, env, answer);
              row == a.row && changed == a.changed && settled == a.settled
    {
      hide SnapshotByStatus, Covers;
      if e.id.None? || e.id.value == "" || row.ref != e.id { return false, false; }
      if row.syncedAt.Some? && started <= row.syncedAt.value { return false, false; }
      var found := LookupPlan(env, e.planId);
      if found.None? || e.status.None? { return false, false; }
      var fields := CleanTracks();
      var advanced;
      changed, settled, advanced, fields := ApplyByStatus(e, invoices, found.value, env, answer, fields);
      fields := StampFetch(Recorded(e.status.value), started, e.id.value, fields);
      Save(fields);
      if advanced { OpenUsage(e.id.value); }
    }

    /** A fresh read differs nowhere from the committed row. */
    method CleanTracks() returns (fields: set<Field>)
      requires saved == row
      ensures Tracks(fields)
    {
      fields := {};
    }

    method StampFetch(recorded: ProviderStatus, started: Time, owner: Ref, fields: set<Field>) returns (touched: set<Field>)
      requires Tracks(fields)
      modifies this`row
      ensures row == old(row).(providerStatus := Some(recorded), syncedAt := Some(started), stamps := old(row).stamps + [Stamp(owner, started)])
      ensures Tracks(touched)
    {
      row := row.(providerStatus := Some(recorded));
      row := row.(syncedAt := Some(started));
      row := row.(stamps := row.stamps + [Stamp(owner, started)]);
      touched := fields + {FProviderStatus, FSyncedAt};
    }

    /** reset_usage_period: insert-or-ignore the UsageRecord of the row's period. */
    method OpenUsage(owner: Ref)
      requires saved == row
      modifies this
      ensures saved == row
      ensures row == old(row).(usage := OpenIf(Applied(old(row), true, true, true), owner))
    {
      if row.periodStart.Some? && row.periodEnd.Some? {
        row := row.(usage := row.usage + [Opening(owner, row.periodStart.value, row.periodEnd.value)]);
      }
      saved := row;
    }

    // --- the replacement's snapshot ---

    method ApplyReplacementSnapshot(e: Entity, invoices: Option<seq<Invoice>>, started: Time, env: Env, answer: Option<Entity>)
      returns (changed: bool, settled: bool)
      requires saved == row
      modifies this
      ensures saved == row
      ensures var a := ReplacementSnapshot(old(row), e, invoices, started, env, answer);
              row == a.row && changed == a.changed && settled == a.settled
    {
      hide BillingSnapshot.ReplacementActive, BillingSnapshot.ClearFailedCommitted,
           BillingSnapshot.AbandonUnlessActive, Abandonable, Covers;
      if e.id.None? || e.id.value == "" || row.repl != e.id || e.status.None? { return false, false; }
      var status := e.status.value;
      if status.PActive? {
        changed, settled := ReplacementActive(e, invoices, started, env);
        return;
      }
      if row.committedAt.Some? {
        if Failed(status) {
          changed, settled := ClearFailedCommitted(env, answer);
          return;
        }
        return false, true;
      }
      var test := if row.status.Active? then WhenFailedOrLapsed(env.now, row.replExpires) else WhenNotActive;
      if !Abandonable(test, status) { return false, true; }
      var fields := CleanTracks();
      var abandoned;
      abandoned, fields := AbandonUnlessActive(test, Refetch(row, answer), env, fields);
      if !abandoned { return false, false; }
      Save(fields);
      return true, true;
    }

    method ClearFailedCommitted(env: Env, answer: Option<Entity>) returns (changed: bool, settled: bool)
      requires saved == row && row.repl.Some?
      modifies this
      ensures saved == row
      ensures var a := BillingSnapshot.ClearFailedCommitted(old(row), env, answer);
              row == a.row && changed == a.changed && settled == a.settled
    {
      var reread := Refetch(row, answer);
      if reread.None? || !Failed(reread.value.status.value) || row.retired.Some? { return false, false; }
      var fields := CleanTracks();
      fields := RetireReplacement(reread.value, env, fields);
      Save(fields);
      return true, true;
    }

    method ReplacementActive(e: Entity, invoices: Option<seq<Invoice>>, started: Time, env: Env) returns (changed: bool, settled: bool)
      requires saved == row && row.repl.Some?
      modifies this
      ensures saved == row
      ensures var a := BillingSnapshot.ReplacementActive(old(row), e, invoices, started, env);
              row == a.row && changed == a.changed && settled == a.settled
    {
      hide Switch, FirstQualifying;
      var paid := CurrentPeriodPaid(e, invoices);
      if paid.None? { return false, false; }
      var found := LookupPlan(env, e.planId);
      if found.None? { return false, false; }
      if row.status.Cancelled? || row.status.Expired? {
        if PaidAfterEnd !in row.log {
          Record(PaidAfterEnd);
          Save({});
        }
        return false, true;
      }
      if !row.status.Active? && !row.status.PastDue? { return false, false; }
      changed, settled := SwitchToReplacement(e, invoices, found.value, started);
    }

    method SwitchToReplacement(e: Entity, invoices: Option<seq<Invoice>>, found: Plan, started: Time) returns (changed: bool, settled: bool)
      requires saved == row && row.repl.Some?
      modifies this
      ensures saved == row
      ensures var a := Switch(old(row), e, invoices, found, started);
              row == a.row && changed == a.changed && settled == a.settled
    {
      hide BillingSnapshot.ApplyActive, Covers;
      var start := FromUnix(e.currentStart);
      if start.None? || start == row.periodStart { return false, false; }
      if row.retired.Some? { return false, false; }
      NotAdvancedNotMoved(row, e, invoices, found, start.value);
      var departing := row.ref;
      var fields := CleanTracks();
      var advanced;
      changed, settled, advanced, fields := ApplyActive(e, invoices, found, fields, true);
      if !advanced { return false, false; }
      fields := MoveSlots(departing, e, started, fields);
      Save(fields);
      return true, true;
    }

    /** The slot moves of a switch, and the new period's UsageRecord. */
    method MoveSlots(departing: Option<Ref>, e: Entity, started: Time, fields: set<Field>) returns (touched: set<Field>)
      requires Tracks(fields) && row.repl.Some?
      modifies this`row
      ensures row == old(row).(
        retired := departing, retiredKind := Some(SwitchedOld), ref := old(row).repl,
        repl := None, replPlan := None, replExpires := None, committedAt := None, confirmedAt := None,
        pending := None, cancelAtEnd := false,
        providerStatus := if e.status.Some? then Some(Recorded(e.status.value)) else None,
        syncedAt := Some(started),
        usage := OpenIf(Applied(old(row), true, true, true), old(row).repl.value),
        stamps := old(row).stamps + [Stamp(old(row).repl.value, started)],
        marks := old(row).marks + if departing.Some? then [departing.value] else [])
      ensures Tracks(touched)
    {
      var owner := row.repl.value;
      row := row.(retired := departing, retiredKind := Some(SwitchedOld));
      row := row.(ref := Some(owner));
      row := row.(repl := None, replPlan := None, replExpires := None, committedAt := None, confirmedAt := None);
      row := row.(pending := None, cancelAtEnd := false);
      row := row.(providerStatus := if e.status.Some? then Some(Recorded(e.status.value)) else None, syncedAt := Some(started));
      row := row.(usage := OpenIf(Applied(row, true, true, true), owner), stamps := row.stamps + [Stamp(owner, started)]);
      if departing.Some? { row := row.(marks := row.marks + [departing.value]); }
      touched := fields + RETIRED_FIELDS + REPLACEMENT_FIELDS + {FRef, FPending, FCancelAtEnd, FProviderStatus, FSyncedAt};
    }

    // --- the downgrade commit point ---

    /** T1. */
    method CommitDowngrade(env: Env, answer: Option<Entity>) returns (committed: bool)
      requires saved == row
      modifies this
      ensures saved == row && (row, committed) == CommitT1(old(row), env, answer)
    {
      hide BillingSnapshot.AbandonUnlessActive, DowngradeVerified;
      if !CommitCandidate(row) || !IsDowngrade(row) { return false; }
      var reread := Refetch(row, answer);
      if reread.None? || reread.value.status != Some(PAuthenticated) { return false; }
      var fields := CleanTracks();
      if !DowngradeVerified(row, reread.value, env) {
        var abandoned;
        abandoned, fields := AbandonUnlessActive(WhenNotActive, reread, env, fields);
        if abandoned { Save(fields); }
        return false;
      }
      fields := Mark(Some(env.now), fields);
      Record(ReplacementCommitted);
      Save(fields);
      return true;
    }

    method Mark(at: Option<Time>, fields: set<Field>) returns (touched: set<Field>)
      requires Tracks(fields)
      modifies this`row
      ensures row == old(row).(committedAt := at) && Tracks(touched)
    {
      row := row.(committedAt := at);
      touched := fields + {FCommittedAt};
    }

    method Confirm(now: Time, fields: set<Field>) returns (touched: set<Field>)
      requires Tracks(fields)
      modifies this`row
      ensures row == old(row).(confirmedAt := Some(now)) && Tracks(touched)
    {
      row := row.(confirmedAt := Some(now));
      touched := fields + {FConfirmedAt};
    }

    /** T2: the outcome of the first call, if the row is still at that pair. */
    method FinishCommit(prior: Ref, pair: Ref, confirmed: bool, env: Env, answer: Option<Entity>) returns (committed: bool)
      requires saved == row
      modifies this
      ensures saved == row
      ensures row == if confirmed then CommitT2Confirmed(old(row), prior, pair, env.now)
                     else CommitT2Refused(old(row), prior, pair, env, answer)
      ensures committed <==> confirmed && StandsCommitted(old(row), prior, pair)
    {
      hide BillingSnapshot.AbandonUnlessActive, Covers;
      if row.ref != Some(prior) || row.repl != Some(pair) || row.committedAt.None? { return false; }
      var fields := CleanTracks();
      if confirmed {
        fields := Confirm(env.now, fields);
        Save(fields);
        return true;
      }
      fields := Mark(None, fields);
      var _, more := AbandonUnlessActive(WhenNotActive, Refetch(row, answer), env, fields);
      Save(more);
      return false;
    }

    method ConfirmReissue(prior: Ref, pair: Ref, now: Time)
      requires saved == row
      modifies this
      ensures saved == row && row == ReissueConfirmed(old(row), prior, pair, now)
    {
      hide Covers;
      if row.ref == Some(prior) && row.repl == Some(pair) && row.committedAt.Some? && row.confirmedAt.None? {
        var fields := CleanTracks();
        fields := Confirm(now, fields);
        Save(fields);
      }
    }

    method DropRetired(which: Ref)
      requires saved == row
      modifies this
      ensures saved == row && row == ClearRetired(old(row), which)
    {
      if row.retired == Some(which) {
        row := row.(retired := None, retiredKind := None);
        row := row.(marks := row.marks + [which]);
        Save(RETIRED_FIELDS);
      }
    }

    // --- dunning ---

    method AdvancePastDue(now: Time)
      requires saved == row && row.status.PastDue? && row.pastDueAt.Some? && row.dunning.Some?
      modifies this
      ensures saved == row && row == AdvanceDunning(old(row), now)
    {
      var since := row.pastDueAt.value;
      if now >= since + GRACE {
        row := row.(status := Expired);
        var fields := ClearGrace({FStatus});
        Record(WasExpired);
        Save(fields);
        return;
      }
      assert DUNNING_STAGES[0] == (6, 6 * DAY) && DUNNING_STAGES[1] == (3, 3 * DAY);
      for i := 0 to |DUNNING_STAGES|
        invariant saved == row == old(row)
        invariant i > 0 ==> now < since + 6 * DAY
        invariant i > 1 ==> now < since + 3 * DAY
      {
        var (stage, offset) := DUNNING_STAGES[i];
        if now >= since + offset {
          if row.dunning.value < stage {
            row := row.(dunning := Some(stage));
            Record(DunningCheckpoint(stage));
            Save({FDunning});
          }
          return;
        }
      }
    }

    // --- the requests ---

    /** The savepoint's rollback. */
    method Rollback(before: Row)
      modifies this
      ensures row == before && saved == before
    {
      row, saved := before, before;
    }

    /** _reconcile: false when a provider call failed and nothing was applied. */
    method Reconciles(a: Answers, env: Env) returns (ok: bool)
      requires saved == row
      modifies this
      ensures saved == row
      ensures ok == Reconcile(old(row), a, env).Some?
      ensures row == if ok then Reconcile(old(row), a, env).value else old(row)
      ensures ok ==> WellFormed(old(row), a.current)
    {
      hide Snapshot;
      if !WellFormed(row, a.current) { return false; }
      var e := a.current.value;
      var needed := InvoicesNeeded(row.status, row.periodStart, e);
      if needed && a.invoicesFail { return false; }
      var _, _ := ApplySnapshot(e, if needed then a.invoices else None, a.started, env, a.replacement);
      ok := true;
    }

    method StoreNewProvider(newPlan: Plan, e: Entity, fields: set<Field>) returns (touched: set<Field>)
      requires Tracks(fields) && e.id.Some?
      modifies this`row
      ensures row == StoreNew(old(row), newPlan, e) && Tracks(touched)
    {
      row := row.(plan := newPlan, status := Incomplete, ref := e.id);
      row := row.(providerStatus := if e.status.Some? then Some(Recorded(e.status.value)) else None);
      row := row.(pending := None, cancelAtEnd := false, syncedAt := None);
      row := row.(periodStart := None, periodEnd := None);
      Record(CheckoutStarted);
      touched := fields + {FPlan, FStatus, FRef, FProviderStatus, FPending, FCancelAtEnd, FSyncedAt, FPeriodStart, FPeriodEnd};
    }

    /** The D2 guard. */
    method ClearsReplacement(a: Answers, env: Env) returns (refusal: Option<Refusal>)
      requires saved == row
      modifies this
      ensures saved == row
      ensures match ClearReplacement(old(row), a.replacementLater, env)
              case Ok(cleared) => refusal.None? && row == cleared
              case Err(why) => refusal == Some(why) && row == old(row)
    {
      hide Retire, Covers;
      if row.repl.None? { return None; }
      var reread := Refetch(row, a.replacementLater);
      var fields := CleanTracks();
      var abandoned;
      abandoned, fields := AbandonUnlessActive(WhenNotActive, reread, env, fields);
      if abandoned {
        Save(fields);
        return None;
      }
      if reread.None? && row.committedAt.None? { return Some(RefusedUnavailable); }
      if row.committedAt.None? && reread.value.status == Some(PActive) { return Some(RefusedReplacementActivating); }
      return Some(RefusedProviderState);
    }

    method ReplacesProvider(newPlan: Plan, cancelCurrent: bool, a: Answers, env: Env)
      returns (refusal: Option<Refusal>, created: bool, ended: set<Ref>)
      requires saved == row
      modifies this
      ensures saved == row
      ensures Reply(row, refusal, created, ended) == ReplaceProvider(old(row), newPlan, cancelCurrent, a, env)
    {
      hide ClearReplacement, StoreNew;
      var before := row;
      refusal, created, ended := None, false, {};
      refusal := ClearsReplacement(a, env);
      if refusal.Some? { return; }
      if cancelCurrent {
        if !a.cancelOk {
          Rollback(before);
          return Some(RefusedUnavailable), false, {};
        }
        ended := if before.ref.Some? then {before.ref.value} else {};
      }
      if !Storable(a.created) {
        Rollback(before);
        return Some(RefusedUnavailable), false, ended;
      }
      var fields := CleanTracks();
      fields := StoreNewProvider(newPlan, a.created.value, fields);
      Save(fields);
      created := true;
    }

    method StartsReplacement(newPlan: Plan, upgrade: bool, ack: bool, a: Answers, env: Env)
      returns (refusal: Option<Refusal>, created: bool)
      requires saved == row
      modifies this
      ensures saved == row
      ensures Reply(row, refusal, created, {}) == StartReplacement(old(row), newPlan, upgrade, ack, a, env)
    {
      var expiry := ReplacementExpiry(row, upgrade, env);
      if expiry.Err? { return Some(expiry.error), false; }
      if row.retired.Some? { return Some(RefusedInProgress), false; }
      if upgrade && !ack { return Some(RefusedNoCreditAck), false; }
      if !Storable(a.created) || a.created.value.id == row.ref { return Some(RefusedUnavailable), false; }
      row := row.(repl := a.created.value.id);
      row := row.(replPlan := Some(newPlan), replExpires := Some(expiry.value));
      var fields := {FRepl, FReplPlan, FReplExpires};
      if !upgrade {
        row := row.(pending := Some(newPlan));
        fields := fields + {FPending};
      }
      Record(ReplacementStarted);
      Save(fields);
      return None, true;
    }

    method ChecksOutActive(newPlan: Plan, ack: bool, a: Answers, env: Env) returns (refusal: Option<Refusal>, created: bool)
      requires saved == row
      modifies this
      ensures saved == row
      ensures Reply(row, refusal, created, {}) == CheckoutActive(old(row), newPlan, ack, a, env)
    {
      hide StartReplacement, Snapshot;
      if row.cancelAtEnd { return Some(RefusedCancelling), false; }
      if newPlan == row.plan || newPlan.price == row.plan.price { return Some(RefusedUnchanged), false; }
      if row.pending == Some(newPlan) { return None, false; }
      var upgrade := newPlan.price > row.plan.price;
      match a.update
      case NoAnswer => return Some(RefusedUnavailable), false;
      case Rejected(unsupported) =>
        if !(unsupported && (if upgrade then env.upgradeOn else env.downgradeOn)) { return Some(RefusedUnsupportedChange), false; }
        StartedEndsNothing(row, newPlan, upgrade, ack, a, env);
        refusal, created := StartsReplacement(newPlan, upgrade, ack, a, env);
      case Updated(e) =>
        if !upgrade {
          row := row.(pending := Some(newPlan));
          Record(PlanChanged);
          Save({FPending});
          return None, false;
        }
        if !WellFormed(row, Some(e)) { return Some(RefusedUnavailable), false; }
        var needed := InvoicesNeeded(row.status, row.periodStart, e);
        if needed && a.updateInvoicesFail { return Some(RefusedUnavailable), false; }
        var _, _ := ApplySnapshot(e, if needed then a.updateInvoices else None, a.updateStarted, env, a.replacementLater);
        return None, false;
    }

    /** POST /billing/checkout. */
    method ChecksOut(newPlan: Plan, ack: bool, a: Answers, env: Env)
      returns (refusal: Option<Refusal>, created: bool, ended: set<Ref>)
      requires saved == row
      modifies this
      ensures saved == row
      ensures Reply(row, refusal, created, ended) == StartCheckout(old(row), newPlan, ack, a, env)
    {
      hide Reconcile, ReplaceProvider, CheckoutActive;
      refusal, created, ended := None, false, {};
      if row.status.PastDue? { return Some(RefusedPastDue), false, {}; }
      if row.status.Active? && row.repl.Some? {
        return if row.replPlan == Some(newPlan) then None else Some(RefusedInProgress), false, {};
      }
      var entity: Option<Entity> := None;
      var before := row.status;
      if row.ref.Some? {
        var ok := Reconciles(a, env);
        if !ok { return Some(RefusedUnavailable), false, {}; }
        entity := a.current;
        if row.status.PastDue? { return Some(RefusedPastDue), false, {}; }
        var state := ProviderStateRefusal(entity.value, env);
        if state.Some? { return state, false, {}; }
      } else if row.status.Active? {
        return Some(RefusedProviderState), false, {};
      }
      if row.status.Active? {
        if !before.Active? && row.plan == newPlan { return None, false, {}; }
        ActiveEndsNothing(row, newPlan, ack, a, env);
        refusal, created := ChecksOutActive(newPlan, ack, a, env);
        return;
      }
      var over := entity.None? || entity.value.status.None? || Terminal(entity.value.status.value);
      if over {
        refusal, created, ended := ReplacesProvider(newPlan, false, a, env);
      } else if row.status.Incomplete? {
        if entity.value.planId == newPlan.providerId { return None, false, {}; }
        if !entity.value.status.value.PCreated? { return Some(RefusedActivating), false, {}; }
        refusal, created, ended := ReplacesProvider(newPlan, true, a, env);
      } else {
        if !MayBeCancelled(entity.value.status.value) { return Some(RefusedProviderState), false, {}; }
        refusal, created, ended := ReplacesProvider(newPlan, true, a, env);
      }
    }

    method CancelsAndRetires(refuseCommitted: bool, a: Answers, env: Env) returns (refusal: Option<Refusal>, ended: set<Ref>)
      requires saved == row && row.repl.Some?
      modifies this
      ensures saved == row
      ensures Reply(row, refusal, false, ended) == CancelAndRetire(old(row), refuseCommitted, a, env)
    {
      hide Retire, Covers;
      refusal, ended := None, {};
      if refuseCommitted && row.committedAt.Some? { return Some(RefusedReplacementCommitted), {}; }
      var reread := Refetch(row, a.replacementLater);
      if reread.None? { return Some(RefusedUnavailable), {}; }
      var status := reread.value.status.value;
      if status.PActive? { return Some(RefusedReplacementActivating), {}; }
      if !NotActive(status) || row.retired.Some? { return Some(RefusedProviderState), {}; }
      if status.PCreated? || status.PAuthenticated? {
        if !a.cancelOk { return Some(RefusedUnavailable), {}; }
        ended := {row.repl.value};
      }
      var fields := CleanTracks();
      fields := RetireReplacement(reread.value, env, fields);
      Save(fields);
    }

    method CancelsPastDue(a: Answers, env: Env) returns (ended: set<Ref>)
      requires saved == row
      modifies this
      ensures saved == row
      ensures Reply(row, None, false, ended) == CancelPastDue(old(row), a, env)
    {
      hide BillingSnapshot.AbandonUnlessActive;
      var current, before := row.ref, row.providerStatus;
      row := row.(status := Cancelled);
      var fields := ClearGrace({FStatus});
      Record(CancellationRequested);
      Save(fields);
      fields := CleanTracks();
      var _, more := AbandonUnlessActive(WhenNotActive, Refetch(row, a.replacementLater), env, fields);
      Save(more);
      ended := {};
      if current.Some? && before.Some? && MayBeCancelled(before.value) && a.endCancelOk {
        ended := {current.value};
        if a.cancelAnswer.Some? && a.cancelAnswer.value.status.Some? {
          row := row.(providerStatus := Some(Recorded(a.cancelAnswer.value.status.value)));
          Save({FProviderStatus});
        }
      }
    }

    method CancelsCurrent(a: Answers, env: Env) returns (refusal: Option<Refusal>, ended: set<Ref>)
      requires saved == row
      modifies this
      ensures saved == row
      ensures Reply(row, refusal, false, ended) == CancelCurrent(old(row), a, env)
    {
      hide Reconcile, CancelPastDue;
      refusal, ended := None, {};
      if !row.status.PastDue? {
        if row.cancelAtEnd { return None, {}; }
        if row.ref.None? { return Some(RefusedProviderState), {}; }
        var ok := Reconciles(a, env);
        if !ok { return Some(RefusedUnavailable), {}; }
        if row.status.Active? {
          if a.current.value.status == Some(PPaused) { return Some(RefusedProviderState), {}; }
          if !a.endCancelOk { return Some(RefusedUnavailable), {}; }
          row := row.(cancelAtEnd := true);
          Record(CancellationRequested);
          Save({FCancelAtEnd});
          return None, {};
        }
        if !row.status.PastDue? { return Some(RefusedNotCancellable), {}; }
      }
      PastDueIsDone(row, a, env);
      ended := CancelsPastDue(a, env);
    }

    /** POST /billing/subscription/cancel. */
    method Cancels(a: Answers, env: Env) returns (refusal: Option<Refusal>, ended: set<Ref>)
      requires saved == row
      modifies this
      ensures saved == row
      ensures Reply(row, refusal, false, ended) == CancelSubscription(old(row), a, env)
    {
      hide CancelAndRetire, CancelCurrent;
      refusal, ended := None, {};
      if row.status.Incomplete? || row.status.Cancelled? || row.status.Expired? { return Some(RefusedNotCancellable), {}; }
      if row.repl.Some? {
        refusal, ended := CancelsAndRetires(false, a, env);
        if refusal.Some? { return; }
      }
      var more;
      refusal, more := CancelsCurrent(a, env);
      ended := ended + more;
    }
  }

  lemma StartedEndsNothing(r: Row, plan: Plan, upgrade: bool, ack: bool, a: Answers, env: Env)
    ensures StartReplacement(r, plan, upgrade, ack, a, env).ended == {}
  {
  }

  lemma ActiveEndsNothing(r: Row, plan: Plan, ack: bool, a: Answers, env: Env)
    ensures CheckoutActive(r, plan, ack, a, env).ended == {}
  {
    hide Snapshot;
  }

  lemma PastDueIsDone(r: Row, a: Answers, env: Env)
    ensures CancelPastDue(r, a, env).refusal.None? && !CancelPastDue(r, a, env).created
  {
    hide BillingSnapshot.AbandonUnlessActive;
  }

  /** Outside the current period, an answer that takes no period changes nothing. */
  lemma NotAdvancedNotMoved(r: Row, e: Entity, invoices: Option<seq<Invoice>>, plan: Plan, start: Time)
    requires FromUnix(e.currentStart) == Some(start) && r.periodStart != Some(start)
    ensures !ApplyActive(r, e, invoices, plan, true).advanced ==> ApplyActive(r, e, invoices, plan, true).row == r
    ensures ApplyActive(r, e, invoices, plan, true).row.repl == r.repl && ApplyActive(r, e, invoices, plan, true).row.marks == r.marks
  {
    hide PeriodPaid;
  }
}
