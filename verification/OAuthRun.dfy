/** Any number of exchange tasks, duplicate deliveries, crashes, sweeps and requests
    over the attempts, interleaved statement by statement. */
module OAuthRun {
  import opened Common
  import opened OAuthAttempts

  type Worker = nat

  /** An exchange task's position. Between `HasRead` and the swap other steps run;
      from `Took` on the code is out of the database. */
  datatype Pc =
    | Idle
    | HasRead(id: Id, code: Cipher, now: Time)
    | Took(id: Id)
    | Sent(id: Id)
    | Inserting(id: Id, x: Exchange)
    | MustFail(id: Id, why: FailureCode)

  /** The clock, the tables and the exchange workers; what happened: the expiry of
      every attempt ever issued, claims that won, codes ever taken, and how often each code went to Google. */
  datatype World = World(
    clock: Time, grace: Time, d: Tables, pcs: map<Worker, Pc>,
    expiry: map<Id, Time>, claims: multiset<Id>, taken: set<Id>, sent: multiset<Id>)

  /** `late` is how long before the clock the caller read its own `now`. */
  datatype Step =
    | Tick(elapsed: nat)
    | Issue(id: Id, user: nat, age: Time)
    | ClaimStep(id: Id, user: nat, code: Cipher, late: nat)
    | Sweep(late: nat)
    | Purge(retention: Time, late: nat)
    | Read(w: Worker, id: Id, late: nat)
    | Swap(w: Worker)
    | SendCode(w: Worker)
    | GiveUp(w: Worker, why: FailureCode, late: nat)
    | FinishStep(w: Worker, x: Exchange, member: bool, late: nat)
    | CommitInsert(w: Worker, late: nat)
    | Crash(w: Worker)
    | Refresh(sub: string, seen: string, access: string, refresh: Option<string>)
    | Revoked(sub: string, seen: string)

  function PcOf(w: World, k: Worker): Pc { if k in w.pcs then w.pcs[k] else Idle }

  function At(w: World, k: Worker, pc: Pc): World { w.(pcs := w.pcs[k := pc]) }

  function WithAttempts(w: World, t: Attempts): World { w.(d := w.d.(attempts := t)) }

  function Next(w: World, s: Step): World {
    match s
    case Tick(elapsed) => w.(clock := w.clock + elapsed)
    case Issue(id, user, age) =>
      if id in w.expiry then w
      else
        WithAttempts(w, w.d.attempts[id := Attempt(user, Issued, None, None, None, w.clock + age, None)])
          .(expiry := w.expiry[id := w.clock + age])
    case ClaimStep(id, user, code, late) =>
      var now := w.clock - late;
      WithAttempts(w, Claim(w.d.attempts, id, user, code, now))
        .(claims := if Claimable(w.d.attempts, id, user, now) then w.claims + multiset{id} else w.claims)
    case Sweep(late) => WithAttempts(w, ExpireAll(w.d.attempts, w.clock - late, w.grace))
    case Purge(retention, late) => WithAttempts(w, PurgeAll(w.d.attempts, w.clock - late, retention))
    case Read(k, id, late) =>
      if PcOf(w, k).Idle? && Readable(w.d.attempts, id, w.clock - late)
      then At(w, k, HasRead(id, w.d.attempts[id].code.value, w.clock - late)) else w
    case Swap(k) =>
      var pc := PcOf(w, k);
      if !pc.HasRead? then w
      else if StillThere(w.d.attempts, pc.id, pc.code, pc.now)
      then At(WithAttempts(w, Take(w.d.attempts, pc.id, pc.code, pc.now)), k, Took(pc.id)).(taken := w.taken + {pc.id})
      else At(w, k, Idle)
    case SendCode(k) =>
      var pc := PcOf(w, k);
      if pc.Took? then At(w, k, Sent(pc.id)).(sent := w.sent + multiset{pc.id}) else w
    case GiveUp(k, why, late) =>
      var pc := PcOf(w, k);
      if pc.Took? || pc.Sent? then At(WithAttempts(w, MarkFailed(w.d.attempts, pc.id, why, w.clock - late)), k, Idle)
      else if pc.MustFail? then At(WithAttempts(w, MarkFailed(w.d.attempts, pc.id, pc.why, w.clock - late)), k, Idle)
      else w
    case FinishStep(k, x, member, late) =>
      var pc := PcOf(w, k);
      if !pc.Sent? then w
      else if member && x.sub !in w.d.connections && x.refresh.Some? then At(w, k, Inserting(pc.id, x))
      else At(w.(d := Finish(w.d, pc.id, x, member, x.sub in w.d.connections, w.clock - late).0), k, Idle)
    case CommitInsert(k, late) =>
      var pc := PcOf(w, k);
      if !pc.Inserting? then w
      else
        var (d, result) := Finish(w.d, pc.id, pc.x, true, false, w.clock - late);
        if result.Conflict? then At(w, k, MustFail(pc.id, AccountAlreadyConnected))
        else At(w.(d := d), k, Idle)
    case Crash(k) => At(w, k, Idle)
    case Refresh(sub, seen, access, refresh) =>
      w.(d := w.d.(connections := RefreshTokens(w.d.connections, sub, seen, access, refresh)))
    case Revoked(sub, seen) => w.(d := w.d.(connections := NeedReauth(w.d.connections, sub, seen)))
  }

  // --- the invariant ---

  /** The worker holds the attempt's code, which no longer is in the database. */
  predicate Holds(pc: Pc) { pc.Took? || pc.Sent? || pc.Inserting? || pc.MustFail? }

  /** One attempt's row, if it still exists, against what has happened to it. */
  predicate AttemptInv(w: World, id: Id) {
    && (id in w.d.attempts ==>
          && id in w.expiry && w.expiry[id] == w.d.attempts[id].expires && Checks(w.d.attempts[id])
          && (w.d.attempts[id].connection.Some? ==> w.d.attempts[id].connection.value in w.d.connections)
          && (w.d.attempts[id].status.Issued? ==> id !in w.claims && id !in w.taken)
          && (w.d.attempts[id].code.Some? ==> id !in w.taken))
    && (id in w.taken || id in w.claims ==> id in w.expiry)
    && w.claims[id] <= 1
    && w.sent[id] <= (if id in w.taken then 1 else 0)
  }

  /** A worker in flight holds a code that was taken; before it hands the code over
      nobody has; and its attempt stays PENDING until the grace period has run out. */
  predicate WorkerInv(w: World, k: Worker) {
    var pc := PcOf(w, k);
    && (pc.HasRead? ==> pc.now <= w.clock)
    && (Holds(pc) ==>
          && pc.id in w.taken && pc.id in w.expiry
          && (pc.Took? ==> w.sent[pc.id] == 0)
          && ((pc.id in w.d.attempts && InFlight(w.d.attempts[pc.id])) || w.clock >= w.expiry[pc.id] + w.grace))
  }

  predicate OneHolder(w: World, j: Worker, k: Worker) {
    Holds(PcOf(w, j)) && Holds(PcOf(w, k)) && PcOf(w, j).id == PcOf(w, k).id ==> j == k
  }

  ghost predicate Inv(w: World) {
    && w.grace >= 0
    && (forall id :: AttemptInv(w, id))
    && (forall k :: WorkerInv(w, k))
    && (forall j, k :: OneHolder(w, j, k))
  }

  predicate TableStep(s: Step) {
    s.Tick? || s.Issue? || s.ClaimStep? || s.Sweep? || s.Purge? || s.Refresh? || s.Revoked?
  }

  lemma Known(w: World, id: Id, j: Worker, k: Worker)
    requires Inv(w)
    ensures AttemptInv(w, id) && WorkerInv(w, j) && WorkerInv(w, k) && OneHolder(w, j, k) && w.grace >= 0
  {
    hide AttemptInv, WorkerInv, OneHolder;
  }

  lemma TableStepKeepsAttempt(w: World, s: Step, id: Id)
    requires Inv(w) && TableStep(s)
    ensures AttemptInv(Next(w, s), id)
  {
    hide Inv, Finish;
    Known(w, id, 0, 0);
  }

  lemma TableStepKeepsWorker(w: World, s: Step, k: Worker)
    requires Inv(w) && TableStep(s)
    ensures WorkerInv(Next(w, s), k)
  {
    hide Inv, Finish;
    Known(w, if PcOf(w, k).Idle? then 0 else PcOf(w, k).id, k, k);
  }

  predicate EndStep(s: Step) { s.GiveUp? || s.FinishStep? || s.CommitInsert? }

  /** Ending an exchange touches only its own attempt, from PENDING to a terminal
      state with the constraints kept, and never removes a connection. */
  ghost predicate Ends(d: Tables, d': Tables, id: Id) {
    && (forall sub :: sub in d.connections ==> sub in d'.connections)
    && (d'.attempts == d.attempts ||
        (id in d.attempts && d.attempts[id].status.Pending? && id in d'.attempts && d'.attempts == d.attempts[id := d'.attempts[id]] &&
         IsTerminal(d'.attempts[id]) && Checks(d'.attempts[id]) && d'.attempts[id].expires == d.attempts[id].expires &&
         (d'.attempts[id].connection.Some? ==> d'.attempts[id].connection == d.attempts[id].connection || d'.attempts[id].connection.value in d'.connections)))
  }

  lemma FinishEnds(d: Tables, id: Id, x: Exchange, member: bool, sawConnection: bool, now: Time)
    requires sawConnection ==> x.sub in d.connections
    requires id in d.attempts ==> Checks(d.attempts[id])
    ensures Ends(d, Finish(d, id, x, member, sawConnection, now).0, id)
  {
  }

  lemma MarkFailedEnds(d: Tables, id: Id, why: FailureCode, now: Time)
    ensures Ends(d, d.(attempts := MarkFailed(d.attempts, id, why, now)), id)
  {
  }

  lemma EndStepEnds(w: World, s: Step)
    requires Inv(w) && EndStep(s)
    ensures var pc := PcOf(w, s.w);
            var w' := Next(w, s);
            || w' == w
            || (Holds(pc) && Ends(w.d, w'.d, pc.id) && w' == w.(d := w'.d, pcs := w'.pcs) &&
                w'.pcs == w.pcs[s.w := PcOf(w', s.w)] &&
                (PcOf(w', s.w).Idle? || (w'.d == w.d && Holds(PcOf(w', s.w)) && PcOf(w', s.w).id == pc.id && !PcOf(w', s.w).Took?)))
  {
    hide Inv, Finish, MarkFailed, Checks;
    var pc := PcOf(w, s.w);
    if Holds(pc) {
      Known(w, pc.id, s.w, s.w);
      match s
      case GiveUp(k, why, late) =>
        MarkFailedEnds(w.d, pc.id, why, w.clock - late);
        if pc.MustFail? { MarkFailedEnds(w.d, pc.id, pc.why, w.clock - late); }
      case FinishStep(k, x, member, late) => FinishEnds(w.d, pc.id, x, member, x.sub in w.d.connections, w.clock - late);
      case CommitInsert(k, late) =>
        if pc.Inserting? {
          FinishEnds(w.d, pc.id, pc.x, true, false, w.clock - late);
        }
    }
  }

  lemma EndStepKeeps(w: World, s: Step, id: Id, k: Worker)
    requires Inv(w) && EndStep(s)
    ensures AttemptInv(Next(w, s), id) && WorkerInv(Next(w, s), k)
  {
    hide Inv, Next;
    EndStepEnds(w, s);
    Known(w, id, s.w, k);
    Known(w, if PcOf(w, k).Idle? then 0 else PcOf(w, k).id, s.w, k);
  }

  lemma CodeStepKeepsAttempt(w: World, s: Step, id: Id)
    requires Inv(w) && !TableStep(s) && !EndStep(s)
    ensures AttemptInv(Next(w, s), id)
  {
    hide Inv, ExpireAll, PurgeAll, Claim, Finish, MarkFailed;
    Known(w, id, s.w, s.w);
    if !PcOf(w, s.w).Idle? { Known(w, PcOf(w, s.w).id, s.w, s.w); }
  }

  lemma CodeStepKeepsWorker(w: World, s: Step, k: Worker)
    requires Inv(w) && !TableStep(s) && !EndStep(s)
    ensures WorkerInv(Next(w, s), k)
  {
    hide Inv, ExpireAll, PurgeAll, Claim, Finish, MarkFailed;
    if !PcOf(w, s.w).Idle? { Known(w, PcOf(w, s.w).id, s.w, k); }
    Known(w, if PcOf(w, k).Idle? then 0 else PcOf(w, k).id, s.w, k);
  }

  /** A task holds a code because it held it before, or because this is its
      successful swap - of a code nobody took before. */
  lemma HolderOrigin(w: World, s: Step, j: Worker)
    requires Inv(w) && Holds(PcOf(Next(w, s), j))
    ensures var pc, pc' := PcOf(w, j), PcOf(Next(w, s), j);
            (Holds(pc) && pc.id == pc'.id) || (s.Swap? && s.w == j && pc'.id !in w.taken)
  {
    hide Inv, ExpireAll, PurgeAll, Claim, Finish, MarkFailed, Take, WorkerInv;
    if s.Swap? && PcOf(w, j).HasRead? { Known(w, PcOf(w, j).id, 0, 0); }
  }

  lemma NextHolder(w: World, s: Step, j: Worker, k: Worker)
    requires Inv(w)
    ensures OneHolder(Next(w, s), j, k)
  {
    hide Inv, Next, AttemptInv;
    Known(w, 0, j, k);
    if Holds(PcOf(Next(w, s), j)) { HolderOrigin(w, s, j); }
    if Holds(PcOf(Next(w, s), k)) { HolderOrigin(w, s, k); }
  }

  lemma NextKeeps(w: World, s: Step)
    requires Inv(w)
    ensures Inv(Next(w, s))
  {
    hide Next, AttemptInv, WorkerInv, OneHolder, TableStep, EndStep;
    var w' := Next(w, s);
    GraceStays(w, s);
    forall id ensures AttemptInv(w', id) {
      if TableStep(s) { TableStepKeepsAttempt(w, s, id); }
      else if EndStep(s) { EndStepKeeps(w, s, id, 0); }
      else { CodeStepKeepsAttempt(w, s, id); }
    }
    forall k ensures WorkerInv(w', k) {
      if TableStep(s) { TableStepKeepsWorker(w, s, k); }
      else if EndStep(s) { EndStepKeeps(w, s, 0, k); }
      else { CodeStepKeepsWorker(w, s, k); }
    }
    forall j, k ensures OneHolder(w', j, k) { NextHolder(w, s, j, k); }
  }

  lemma GraceStays(w: World, s: Step)
    ensures Next(w, s).grace == w.grace && Next(w, s).clock >= w.clock
  {
    hide Finish, ExpireAll, PurgeAll, Claim, MarkFailed, Take;
  }

  // --- runs ---

  function Run(w: World, steps: seq<Step>): World
    decreases |steps|
  {
    if steps == [] then w else Run(Next(w, steps[0]), steps[1..])
  }

  predicate Initial(w: World) {
    && w.grace >= 0 && w.d.attempts == map[] && w.pcs == map[]
    && w.expiry == map[] && w.claims == multiset{} && w.taken == {} && w.sent == multiset{}
  }

  lemma {:induction false} RunKeeps(w: World, steps: seq<Step>)
    requires Inv(w)
    ensures Inv(Run(w, steps))
    decreases |steps|
  {
    hide Inv, Next;
    if steps != [] {
      NextKeeps(w, steps[0]);
      RunKeeps(Next(w, steps[0]), steps[1..]);
    }
  }

  lemma Reachable(w: World, steps: seq<Step>)
    requires Initial(w)
    ensures Inv(Run(w, steps))
  {
    hide Run;
    RunKeeps(w, steps);
  }

  // --- the promises ---

  /** A code reaches Google at most once per attempt, and an attempt is claimed at
      most once, in every run. */
  lemma CodeIsSingleUse(w: World, steps: seq<Step>, id: Id)
    requires Initial(w)
    ensures Run(w, steps).sent[id] <= 1 && Run(w, steps).claims[id] <= 1
  {
    hide Run, Initial, Inv;
    Reachable(w, steps);
    Known(Run(w, steps), id, 0, 0);
  }

  /** The database constraints hold of every attempt in every run. */
  lemma ChecksHold(w: World, steps: seq<Step>, id: Id)
    requires Initial(w) && id in Run(w, steps).d.attempts
    ensures Checks(Run(w, steps).d.attempts[id])
  {
    hide Run, Initial, Inv;
    Reachable(w, steps);
    Known(Run(w, steps), id, 0, 0);
  }

  /** COMPLETED and FAILED are absorbing until the row is purged. */
  lemma {:induction false} TerminalIsAbsorbing(w: World, steps: seq<Step>, id: Id)
    requires Inv(w) && id in w.d.attempts && IsTerminal(w.d.attempts[id])
    ensures id in Run(w, steps).d.attempts ==> Run(w, steps).d.attempts[id] == w.d.attempts[id]
    decreases |steps|
  {
    hide Next, Inv;
    if steps != [] {
      var w1 := Next(w, steps[0]);
      NextKeeps(w, steps[0]);
      TerminalStep(w, steps[0], id);
      if id in w1.d.attempts {
        TerminalIsAbsorbing(w1, steps[1..], id);
      } else {
        PurgedStaysGone(w1, steps[1..], id);
      }
    }
  }

  lemma TerminalStep(w: World, s: Step, id: Id)
    requires Inv(w) && id in w.d.attempts && IsTerminal(w.d.attempts[id])
    ensures id in Next(w, s).d.attempts ==> Next(w, s).d.attempts[id] == w.d.attempts[id]
    ensures id in Next(w, s).expiry
  {
    hide Inv, Reauthorize, AttemptInv, WorkerInv;
    KnownExpiry(w, id);
  }

  lemma KnownExpiry(w: World, id: Id)
    requires Inv(w) && id in w.d.attempts
    ensures id in w.expiry
  {
    hide Inv;
    Known(w, id, 0, 0);
  }

  lemma {:induction false} PurgedStaysGone(w: World, steps: seq<Step>, id: Id)
    requires Inv(w) && id !in w.d.attempts && id in w.expiry
    ensures id !in Run(w, steps).d.attempts
    decreases |steps|
  {
    hide Inv, Next;
    if steps != [] {
      NextKeeps(w, steps[0]);
      GoneStep(w, steps[0], id);
      PurgedStaysGone(Next(w, steps[0]), steps[1..], id);
    }
  }

  lemma GoneStep(w: World, s: Step, id: Id)
    requires Inv(w) && id !in w.d.attempts && id in w.expiry
    ensures id !in Next(w, s).d.attempts && id in Next(w, s).expiry
  {
    hide Inv, Reauthorize;
    Known(w, id, 0, 0);
  }

  /** A finish is all or nothing: a connection is written only in the step that moves
      the exchange's own attempt from PENDING to COMPLETED with that connection - or
      by a token write, which adds none and reaches only an ACTIVE connection whose
      refresh token is still the one that was read. */
  lemma ConnectionOnlyWithCompletion(w: World, s: Step, sub: string)
    requires Inv(w)
    ensures var before, after := w.d.connections, Next(w, s).d.connections;
            && (sub in before ==> sub in after)
            && (sub in after && (sub !in before || after[sub] != before[sub]) ==>
                  if s.Refresh? || s.Revoked? then s.sub == sub && TokenUnchanged(before, sub, s.seen)
                  else
                    && (s.FinishStep? || s.CommitInsert?) && Holds(PcOf(w, s.w))
                    && (var id := PcOf(w, s.w).id;
                        && id in w.d.attempts && w.d.attempts[id].status.Pending?
                        && Next(w, s).d.attempts[id].status.Completed? && Next(w, s).d.attempts[id].connection == Some(sub)))
  {
    hide Inv, ExpireAll, PurgeAll, Claim;
  }

  /** An exchange whose code was taken, finishing before its grace period has run
      out, finds its attempt still PENDING whatever sweeps ran: it is never cut off. */
  lemma ExchangeIsNeverCutOff(w: World, steps: seq<Step>, k: Worker)
    requires Initial(w) && Holds(PcOf(Run(w, steps), k))
    ensures var now := Run(w, steps);
            var id := PcOf(now, k).id;
            id in now.expiry && (now.clock < now.expiry[id] + now.grace ==>
              id in now.d.attempts && now.d.attempts[id].status.Pending? && now.d.attempts[id].expires == now.expiry[id])
  {
    hide Run, Initial, Inv;
    Reachable(w, steps);
    Known(Run(w, steps), PcOf(Run(w, steps), k).id, k, k);
  }

  /** After a sweep at or past an attempt's expiry plus the grace period it is terminal. */
  lemma SweepEndsTheOverdue(w: World, late: nat, id: Id)
    requires w.grace >= 0 && id in w.d.attempts && w.clock - late >= w.d.attempts[id].expires + w.grace
    ensures id in Next(w, Sweep(late)).d.attempts && IsTerminal(Next(w, Sweep(late)).d.attempts[id])
  {
  }

  // --- who claims ---

  predicate Claimed(a: Attempt) { a.status == Pending || a.status == Completed }

  /** The step is the attempt's own user claiming it, ISSUED and unexpired. */
  predicate OwnClaim(w: World, s: Step, id: Id, a: Attempt) {
    && s.ClaimStep? && s.id == id && s.user == a.user
    && id in w.d.attempts && w.d.attempts[id].status == Issued && w.clock - s.late < a.expires
  }

  ghost predicate ClaimedDuring(w: World, steps: seq<Step>, id: Id, a: Attempt) {
    exists k: nat :: k < |steps| && OwnClaim(Run(w, steps[..k]), steps[k], id, a)
  }

  lemma FinishClaims(d: Tables, f: Id, x: Exchange, member: bool, sawConnection: bool, now: Time, id: Id)
    requires sawConnection ==> x.sub in d.connections
    requires var after := Finish(d, f, x, member, sawConnection, now).0.attempts; id in after && Claimed(after[id])
    ensures var after := Finish(d, f, x, member, sawConnection, now).0.attempts;
            id in d.attempts && Claimed(d.attempts[id]) && d.attempts[id].user == after[id].user && d.attempts[id].expires == after[id].expires
  {
    hide Reauthorize;
  }

  /** A claimed attempt was claimed already, by the same user, or is by this step. */
  predicate StaysClaimed(w: World, s: Step, id: Id)
    requires id in Next(w, s).d.attempts
  {
    var a := Next(w, s).d.attempts[id];
    || OwnClaim(w, s, id, a)
    || (id in w.d.attempts && Claimed(w.d.attempts[id]) && w.d.attempts[id].user == a.user && w.d.attempts[id].expires == a.expires)
  }

  lemma ClaimedTableStep(w: World, s: Step, id: Id)
    requires TableStep(s)
    requires id in Next(w, s).d.attempts && Claimed(Next(w, s).d.attempts[id])
    ensures StaysClaimed(w, s, id)
  {
    hide Finish, MarkFailed, Take;
  }

  lemma ClaimedEndStep(w: World, s: Step, id: Id)
    requires EndStep(s)
    requires id in Next(w, s).d.attempts && Claimed(Next(w, s).d.attempts[id])
    ensures StaysClaimed(w, s, id)
  {
    hide Finish, ExpireAll, PurgeAll, Claim, Take;
    var pc := PcOf(w, s.w);
    if s.FinishStep? && pc.Sent? && !(s.member && s.x.sub !in w.d.connections && s.x.refresh.Some?) {
      FinishClaims(w.d, pc.id, s.x, s.member, s.x.sub in w.d.connections, w.clock - s.late, id);
    }
    if s.CommitInsert? && pc.Inserting? && !Finish(w.d, pc.id, pc.x, true, false, w.clock - s.late).1.Conflict? {
      FinishClaims(w.d, pc.id, pc.x, true, false, w.clock - s.late, id);
    }
  }

  lemma ClaimedStep(w: World, s: Step, id: Id)
    requires id in Next(w, s).d.attempts && Claimed(Next(w, s).d.attempts[id])
    ensures StaysClaimed(w, s, id)
  {
    hide Finish, ExpireAll, PurgeAll, Claim, MarkFailed;
    if TableStep(s) {
      ClaimedTableStep(w, s, id);
    } else if EndStep(s) {
      ClaimedEndStep(w, s, id);
    }
  }

  /** In every run: an attempt that is PENDING or COMPLETED was claimed by the user who
      started it, at a time before it expired. */
  lemma ClaimedByItsUser(w: World, steps: seq<Step>, id: Id)
    requires Initial(w) && id in Run(w, steps).d.attempts && Claimed(Run(w, steps).d.attempts[id])
    ensures ClaimedDuring(w, steps, id, Run(w, steps).d.attempts[id])
  {
    hide ClaimedDuring;
    ClaimedOnTheWay(w, steps, id);
  }

  lemma {:induction false} ClaimedOnTheWay(w: World, steps: seq<Step>, id: Id)
    requires id in Run(w, steps).d.attempts && Claimed(Run(w, steps).d.attempts[id])
    ensures var a := Run(w, steps).d.attempts[id];
            || ClaimedDuring(w, steps, id, a)
            || (id in w.d.attempts && Claimed(w.d.attempts[id]) && w.d.attempts[id].user == a.user && w.d.attempts[id].expires == a.expires)
    decreases |steps|
  {
    hide Next, OwnClaim;
    if steps != [] {
      var w1, a := Next(w, steps[0]), Run(w, steps).d.attempts[id];
      ClaimedOnTheWay(w1, steps[1..], id);
      if ClaimedDuring(w1, steps[1..], id, a) {
        var k: nat :| k < |steps[1..]| && OwnClaim(Run(w1, steps[1..][..k]), steps[1..][k], id, a);
        assert steps[..k + 1][0] == steps[0] && steps[..k + 1][1..] == steps[1..][..k] && steps[1..][k] == steps[k + 1];
        assert Run(w, steps[..k + 1]) == Run(w1, steps[1..][..k]);
      } else {
        ClaimedStep(w, steps[0], id);
        OwnClaimReads(w, steps[0], id, w1.d.attempts[id], a);
        assert steps[..0] == [];
      }
    }
  }

  lemma OwnClaimReads(w: World, s: Step, id: Id, a: Attempt, b: Attempt)
    requires a.user == b.user && a.expires == b.expires
    ensures OwnClaim(w, s, id, a) == OwnClaim(w, s, id, b)
  {
  }

  // --- each statement, column by column ---

  /** A claim wins exactly on the caller's own attempt, still ISSUED and not expired;
      it then stores the caller's code, and nothing else changes. */
  lemma ClaimExactly(w: World, id: Id, user: nat, code: Cipher, late: nat)
    ensures var before, w' := w.d.attempts, Next(w, ClaimStep(id, user, code, late));
            var wins := id in before && before[id].user == user && before[id].status == Issued && w.clock - late < before[id].expires;
            && w'.claims == (if wins then w.claims + multiset{id} else w.claims)
            && w'.d == (if wins then w.d.(attempts := before[id := before[id].(status := Pending, code := Some(code))]) else w.d)
  {
  }

  /** The worker moved on with the attempt failed for this reason - if it still was
      PENDING - and its code gone; no connection and no audit row was written. */
  predicate FailedWith(w: World, w': World, id: Id, why: FailureCode, now: Time) {
    && w'.d.connections == w.d.connections && w'.d.audits == w.d.audits
    && w'.d.attempts == if id in w.d.attempts && w.d.attempts[id].status == Pending
                        then var a := w.d.attempts[id];
                             w.d.attempts[id := Attempt(a.user, Failed, None, Some(why), a.connection, a.expires, Some(now))]
                        else w.d.attempts
  }

  /** The attempt completed with this connection, written and audited - or, no longer PENDING, nothing was written at all. */
  predicate CompletedWith(w: World, w': World, id: Id, sub: string, c: Connection, now: Time) {
    if id in w.d.attempts && w.d.attempts[id].status == Pending then
      var a := w.d.attempts[id];
      && w'.d.attempts == w.d.attempts[id := Attempt(a.user, Completed, None, a.failure, Some(sub), a.expires, Some(now))]
      && w'.d.connections == w.d.connections[sub := c] && w'.d.audits == w.d.audits + 1
    else w'.d == w.d
  }

  /** An expired attempt that nobody holds the code of fails as expired; one whose
      exchange is in flight fails as interrupted once the grace period is over too;
      every other row stays. */
  lemma SweepExactly(w: World, late: nat, id: Id)
    requires id in w.d.attempts
    ensures var now, a, after := w.clock - late, w.d.attempts[id], Next(w, Sweep(late)).d;
            && after.attempts.Keys == w.d.attempts.Keys && after.connections == w.d.connections && after.audits == w.d.audits
            && after.attempts[id] ==
                 if (a.status == Issued || (a.status == Pending && a.code != None)) && a.expires <= now
                 then Attempt(a.user, Failed, None, Some(OauthExpired), a.connection, a.expires, Some(now))
                 else if a.status == Pending && a.code == None && a.expires + w.grace <= now
                 then Attempt(a.user, Failed, None, Some(ExchangeInterrupted), a.connection, a.expires, Some(now))
                 else a
  {
  }

  /** A purge removes exactly the terminal attempts expired for the retention period. */
  lemma PurgeExactly(w: World, retention: Time, late: nat, id: Id)
    requires id in w.d.attempts
    ensures var a, after := w.d.attempts[id], Next(w, Purge(retention, late)).d.attempts;
            && after.Keys <= w.d.attempts.Keys
            && (id in after <==> !((a.status == Completed || a.status == Failed) && a.expires + retention <= w.clock - late))
            && (id in after ==> after[id] == a)
  {
  }

  /** A task reads the code of a PENDING attempt that has one and is not expired. */
  lemma ReadExactly(w: World, k: Worker, id: Id, late: nat)
    requires PcOf(w, k) == Idle
    ensures var now := w.clock - late;
            PcOf(Next(w, Read(k, id, late)), k) ==
              if id in w.d.attempts && w.d.attempts[id].status == Pending && w.d.attempts[id].code != None && now < w.d.attempts[id].expires
              then HasRead(id, w.d.attempts[id].code.value, now) else Idle
  {
  }

  /** A task gets the code it read if and only if that code is still there, PENDING and unexpired. */
  lemma SwapExactly(w: World, k: Worker, id: Id, code: Cipher, now: Time)
    requires PcOf(w, k) == HasRead(id, code, now)
    ensures var before, w' := w.d.attempts, Next(w, Swap(k));
            var got := id in before && before[id].status == Pending && before[id].code == Some(code) && now < before[id].expires;
            && w'.d == (if got then w.d.(attempts := before[id := before[id].(code := None)]) else w.d)
            && PcOf(w', k) == (if got then Took(id) else Idle)
            && w'.taken == (if got then w.taken + {id} else w.taken)
  {
  }

  /** What the exchange's end writes: a caller who left fails the attempt; a known
      account keeps its refresh token when Google sent none, unless it needs
      reauthorizing; a new one must bring its own, and is inserted in a second step. */
  lemma FinishExactly(w: World, k: Worker, id: Id, x: Exchange, member: bool, late: nat)
    requires PcOf(w, k) == Sent(id)
    ensures var w', now := Next(w, FinishStep(k, x, member, late)), w.clock - late;
            var known := x.sub in w.d.connections;
            if !member then FailedWith(w, w', id, ActorNotMember, now) && PcOf(w', k) == Idle
            else if x.refresh == None && !(known && w.d.connections[x.sub].active)
            then FailedWith(w, w', id, RefreshTokenMissing, now) && PcOf(w', k) == Idle
            else if !known then w'.d == w.d && PcOf(w', k) == Inserting(id, x)
            else
              && PcOf(w', k) == Idle
              && CompletedWith(w, w', id, x.sub,
                   Connection(x.access, if x.refresh == None then w.d.connections[x.sub].refresh else x.refresh.value, x.email, true), now)
  {
  }

  /** The insert conflicts exactly when the account was connected meanwhile; the next step then fails the attempt for it. */
  lemma InsertExactly(w: World, k: Worker, id: Id, x: Exchange, late: nat)
    requires PcOf(w, k) == Inserting(id, x) && x.refresh.Some?
    ensures var w', now := Next(w, CommitInsert(k, late)), w.clock - late;
            if x.sub in w.d.connections then w'.d == w.d && PcOf(w', k) == MustFail(id, AccountAlreadyConnected)
            else PcOf(w', k) == Idle && CompletedWith(w, w', id, x.sub, Connection(x.access, x.refresh.value, x.email, true), now)
  {
  }

  lemma GiveUpExactly(w: World, k: Worker, why: FailureCode, late: nat)
    requires PcOf(w, k).Took? || PcOf(w, k).Sent? || PcOf(w, k).MustFail?
    ensures var w', pc := Next(w, GiveUp(k, why, late)), PcOf(w, k);
            FailedWith(w, w', pc.id, if pc.MustFail? then pc.why else why, w.clock - late) && PcOf(w', k) == Idle
  {
  }

  /** A refreshed token is stored, or the connection suspended, only while the row is
      ACTIVE with the refresh token the caller read; the email never changes. */
  lemma TokenWritesExactly(w: World, sub: string, seen: string, access: string, refresh: Option<string>)
    ensures var before := w.d.connections;
            var holds := sub in before && before[sub].active && before[sub].refresh == seen;
            && Next(w, Refresh(sub, seen, access, refresh)).d == w.d.(connections :=
                 if holds then before[sub := Connection(access, if refresh == None then before[sub].refresh else refresh.value, before[sub].email, true)]
                 else before)
            && Next(w, Revoked(sub, seen)).d == w.d.(connections :=
                 if holds then before[sub := Connection(before[sub].access, seen, before[sub].email, false)] else before)
  {
  }
}
