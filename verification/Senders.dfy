/** Which WhatsApp account a location sends from. First each operation as one
    transaction run alone, then any number of them interleaved statement by
    statement under the row locks the code takes (account first, then mapping). */
module Senders {
  import opened Common

  type Time = int
  type MerchantId = nat
  type LocationId = nat
  type AccountId = nat
  type Thread = nat

  datatype Status = Active | Pending | Suspended

  /** `owner` is the merchant of an own number, None for the shared number. */
  datatype Account = Account(owner: Option<MerchantId>, status: Status, token: Option<string>, connectedAt: Option<Time>)

  /** UNIQUE(location) makes the mapping table a map; `homes` is each location's merchant. */
  datatype Db = Db(accounts: map<AccountId, Account>, mappings: map<LocationId, AccountId>, homes: map<LocationId, MerchantId>)

  datatype SenderError = NotActive | CannotServe | SenderNotFound | SenderInUse

  predicate Serves(db: Db, account: AccountId, location: LocationId) {
    && account in db.accounts && location in db.homes
    && (db.accounts[account].owner.None? || db.accounts[account].owner == Some(db.homes[location]))
  }

  predicate InUse(db: Db, account: AccountId) {
    exists l :: l in db.mappings && db.mappings[l] == account
  }

  // --- the operations, run alone ---

  /** `seen` is the status in the caller's copy of the account, which may be stale. */
  function SetSender(db: Db, location: LocationId, account: AccountId, seen: Status): (Db, Result<bool, SenderError>) {
    if !seen.Active? then (db, Err(NotActive))
    else if account in db.accounts && !Serves(db, account, location) then (db, Err(CannotServe))
    else if account !in db.accounts then (db, Err(SenderNotFound))
    else if !db.accounts[account].status.Active? then (db, Err(NotActive))
    else (db.(mappings := db.mappings[location := account]), Ok(location !in db.mappings || db.mappings[location] != account))
  }

  function ClearSender(db: Db, location: LocationId): Db {
    db.(mappings := map l | l in db.mappings && l != location :: db.mappings[l])
  }

  function Cut(a: Account): Account { a.(status := Suspended, token := None) }

  function Disconnect(db: Db, account: AccountId): (Db, Result<bool, SenderError>) {
    if account !in db.accounts || db.accounts[account].owner.None? then (db, Err(SenderNotFound))
    else if db.accounts[account].status.Suspended? && db.accounts[account].token.None? then (db, Ok(false))
    else if InUse(db, account) then (db, Err(SenderInUse))
    else (db.(accounts := db.accounts[account := Cut(db.accounts[account])]), Ok(true))
  }

  predicate Activatable(db: Db, account: AccountId) {
    && account in db.accounts && db.accounts[account].owner.Some?
    && db.accounts[account].status.Pending? && db.accounts[account].token.Some?
  }

  /** The UPDATE ... WHERE status = PENDING after the provider answered. */
  function Activated(db: Db, account: AccountId, refused: bool, now: Time): Db {
    if account !in db.accounts || !db.accounts[account].status.Pending? then db
    else
      var a := db.accounts[account];
      db.(accounts := db.accounts[account :=
        if refused then a.(status := Suspended)
        else a.(status := Active, connectedAt := if a.connectedAt.Some? then a.connectedAt else Some(now))])
  }

  function SenderOf(db: Db, location: LocationId): Option<AccountId> {
    if location in db.mappings && db.mappings[location] in db.accounts && db.accounts[db.mappings[location]].status.Active?
    then Some(db.mappings[location]) else None
  }

  /** A set is accepted exactly for an ACTIVE account - in the caller's copy and in the
      table - that may serve the location; it answers whether the mapping changed. */
  lemma SetExactly(db: Db, location: LocationId, account: AccountId, seen: Status)
    ensures var (after, r) := SetSender(db, location, account, seen);
            var known := account in db.accounts;
            var mayServe := known && location in db.homes && (db.accounts[account].owner == None || db.accounts[account].owner == Some(db.homes[location]));
            && after.accounts == db.accounts && after.homes == db.homes
            && (r.Ok? <==> seen == Active && mayServe && db.accounts[account].status == Active)
            && (r.Ok? ==> && after.mappings == db.mappings[location := account]
                          && (r.value <==> !(location in db.mappings && db.mappings[location] == account)))
            && (r.Err? ==> after.mappings == db.mappings)
            && (r == Err(SenderNotFound) <==> seen == Active && !known)
            && (r == Err(CannotServe) <==> seen == Active && known && !mayServe)
  {
  }

  /** A disconnect is for own numbers only; it does nothing to a number already
      suspended without its token, is refused while any location uses the number, and
      otherwise suspends it and clears the token. */
  lemma DisconnectExactly(db: Db, account: AccountId)
    ensures var (after, r) := Disconnect(db, account);
            var own := account in db.accounts && db.accounts[account].owner != None;
            var finished := own && db.accounts[account].status == Suspended && db.accounts[account].token == None;
            var used := exists l :: l in db.mappings && db.mappings[l] == account;
            && r == (if !own then Err(SenderNotFound) else if finished then Ok(false) else if used then Err(SenderInUse) else Ok(true))
            && after == if r == Ok(true)
                        then db.(accounts := db.accounts[account :=
                               Account(db.accounts[account].owner, Suspended, None, db.accounts[account].connectedAt)])
                        else db
  {
  }

  lemma ClearExactly(db: Db, location: LocationId, l: LocationId)
    ensures var after := ClearSender(db, location);
            && after.accounts == db.accounts && after.homes == db.homes
            && (l in after.mappings <==> l in db.mappings && l != location)
            && (l in after.mappings ==> after.mappings[l] == db.mappings[l])
  {
  }

  /** The rows, changed in place. */
  class SenderRows {
    var accounts: map<AccountId, Account>
    var mappings: map<LocationId, AccountId>
    const homes: map<LocationId, MerchantId>

    constructor (db: Db)
      ensures Contents() == db
    {
      accounts, mappings, homes := db.accounts, db.mappings, db.homes;
    }

    function Contents(): Db reads this { Db(accounts, mappings, homes) }

    method SetLocationSender(location: LocationId, account: AccountId, seen: Status) returns (r: Result<bool, SenderError>)
      modifies this`mappings
      ensures (Contents(), r) == SetSender(old(Contents()), location, account, seen)
    {
      if !seen.Active? { return Err(NotActive); }
      if account in accounts && !Serves(Contents(), account, location) { return Err(CannotServe); }
      if account !in accounts { return Err(SenderNotFound); }
      if !accounts[account].status.Active? { return Err(NotActive); }
      if location !in mappings {
        mappings := mappings[location := account];
        return Ok(true);
      }
      var changed := mappings[location] != account;
      if changed { mappings := mappings[location := account]; }
      assert mappings == old(mappings)[location := account];
      return Ok(changed);
    }

    method ClearLocationSender(location: LocationId)
      modifies this`mappings
      ensures Contents() == ClearSender(old(Contents()), location)
    {
      if location !in mappings {
        assert mappings == ClearSender(Contents(), location).mappings;
        return;
      }
      mappings := map l | l in mappings && l != location :: mappings[l];
    }

    method DisconnectOwnNumber(account: AccountId) returns (r: Result<bool, SenderError>)
      modifies this`accounts
      ensures (Contents(), r) == Disconnect(old(Contents()), account)
    {
      if account !in accounts || accounts[account].owner.None? { return Err(SenderNotFound); }
      var locked := accounts[account];
      if locked.status.Suspended? && locked.token.None? { return Ok(false); }
      if exists l :: l in mappings && mappings[l] == account { return Err(SenderInUse); }
      locked := locked.(status := Suspended);
      locked := locked.(token := None);
      accounts := accounts[account := locked];
      return Ok(true);
    }

    /** The conditional UPDATE in the transaction after the provider's answer. */
    method FinishActivation(account: AccountId, refused: bool, now: Time)
      modifies this`accounts
      ensures Contents() == Activated(old(Contents()), account, refused, now)
    {
      if account !in accounts || !accounts[account].status.Pending? { return; }
      var row := accounts[account];
      if refused {
        row := row.(status := Suspended);
      } else {
        row := row.(status := Active);
        if row.connectedAt.None? { row := row.(connectedAt := Some(now)); }
      }
      accounts := accounts[account := row];
    }
  }

  // --- interleaved ---

  datatype Pc =
    | Idle
    | SetWants(l: LocationId, a: AccountId) | SetHas(l: LocationId, a: AccountId)
    | SetNoRow(l: LocationId, a: AccountId) | SetConflict(l: LocationId, a: AccountId) | SetRow(l: LocationId, a: AccountId)
    | ClearWants(l: LocationId) | ClearRow(l: LocationId)
    | CutWants(a: AccountId) | CutHas(a: AccountId) | CutFree(a: AccountId)
    | Calling(a: AccountId)

  /** A row lock on a location also stands for an insert not committed yet. */
  datatype World = World(db: Db, accountLock: map<AccountId, Thread>, rowLock: map<LocationId, Thread>, pcs: map<Thread, Pc>)

  datatype Step =
    | BeginSet(t: Thread, l: LocationId, a: AccountId, seen: Status)
    | LockActive(t: Thread) | FindRow(t: Thread) | Insert(t: Thread) | FindAgain(t: Thread) | CommitSet(t: Thread)
    | BeginClear(t: Thread, l: LocationId) | FindCleared(t: Thread) | CommitClear(t: Thread)
    | BeginCut(t: Thread, a: AccountId) | LockCut(t: Thread) | CheckUse(t: Thread) | CommitCut(t: Thread)
    | BeginActivation(t: Thread, a: AccountId) | EndActivation(t: Thread, refused: bool, now: Time)
    | Rollback(t: Thread)
    | Join(a: AccountId, owner: MerchantId, token: string) | Share(a: AccountId, status: Status)

  function PcOf(w: World, t: Thread): Pc { if t in w.pcs then w.pcs[t] else Idle }

  function At(w: World, t: Thread, pc: Pc): World { w.(pcs := w.pcs[t := pc]) }

  predicate AccountBlocked(w: World, t: Thread, a: AccountId) { a in w.accountLock && w.accountLock[a] != t }

  predicate RowBlocked(w: World, t: Thread, l: LocationId) { l in w.rowLock && w.rowLock[l] != t }

  /** Commit or rollback: every lock the thread holds goes. */
  function Release(w: World, t: Thread): World {
    w.(accountLock := map a | a in w.accountLock && w.accountLock[a] != t :: w.accountLock[a],
       rowLock := map l | l in w.rowLock && w.rowLock[l] != t :: w.rowLock[l],
       pcs := w.pcs[t := Idle])
  }

  function Next(w: World, s: Step): World {
    match s
    case BeginSet(t, l, a, seen) =>
      if PcOf(w, t).Idle? && seen.Active? && Serves(w.db, a, l) then At(w, t, SetWants(l, a)) else w
    case LockActive(t) =>
      var pc := PcOf(w, t);
      if !pc.SetWants? then w
      else if pc.a !in w.db.accounts then At(w, t, Idle)
      else if w.db.accounts[pc.a].owner.None? then
        if w.db.accounts[pc.a].status.Active? then At(w, t, SetHas(pc.l, pc.a)) else At(w, t, Idle)
      else if AccountBlocked(w, t, pc.a) then w
      else if w.db.accounts[pc.a].status.Active? then At(w.(accountLock := w.accountLock[pc.a := t]), t, SetHas(pc.l, pc.a))
      else At(w, t, Idle)
    case FindRow(t) =>
      var pc := PcOf(w, t);
      if !pc.SetHas? then w
      else if pc.l !in w.db.mappings then At(w, t, SetNoRow(pc.l, pc.a))
      else if RowBlocked(w, t, pc.l) then w
      else At(w.(rowLock := w.rowLock[pc.l := t]), t, SetRow(pc.l, pc.a))
    case Insert(t) =>
      var pc := PcOf(w, t);
      if !pc.SetNoRow? then w
      else if pc.l in w.db.mappings then At(w, t, SetConflict(pc.l, pc.a))
      else if RowBlocked(w, t, pc.l) then w
      else At(w.(rowLock := w.rowLock[pc.l := t]), t, SetRow(pc.l, pc.a))
    case FindAgain(t) =>
      // The re-read after UNIQUE(location) refused the insert. A mapping cleared in
      // between leaves nothing to update: the request fails and rolls back.
      var pc := PcOf(w, t);
      if !pc.SetConflict? then w
      else if pc.l !in w.db.mappings then Release(w, t)
      else if RowBlocked(w, t, pc.l) then w
      else At(w.(rowLock := w.rowLock[pc.l := t]), t, SetRow(pc.l, pc.a))
    case CommitSet(t) =>
      var pc := PcOf(w, t);
      if pc.SetRow? then Release(w.(db := w.db.(mappings := w.db.mappings[pc.l := pc.a])), t) else w
    case BeginClear(t, l) => if PcOf(w, t).Idle? then At(w, t, ClearWants(l)) else w
    case FindCleared(t) =>
      var pc := PcOf(w, t);
      if !pc.ClearWants? then w
      else if pc.l !in w.db.mappings then At(w, t, Idle)
      else if RowBlocked(w, t, pc.l) then w
      else At(w.(rowLock := w.rowLock[pc.l := t]), t, ClearRow(pc.l))
    case CommitClear(t) =>
      if PcOf(w, t).ClearRow? then Release(w.(db := ClearSender(w.db, PcOf(w, t).l)), t) else w
    case BeginCut(t, a) => if PcOf(w, t).Idle? then At(w, t, CutWants(a)) else w
    case LockCut(t) =>
      var pc := PcOf(w, t);
      if !pc.CutWants? then w
      else if pc.a !in w.db.accounts || w.db.accounts[pc.a].owner.None? then At(w, t, Idle)
      else if AccountBlocked(w, t, pc.a) then w
      else At(w.(accountLock := w.accountLock[pc.a := t]), t, CutHas(pc.a))
    case CheckUse(t) =>
      var pc := PcOf(w, t);
      if !pc.CutHas? || pc.a !in w.db.accounts then w
      else if w.db.accounts[pc.a].status.Suspended? && w.db.accounts[pc.a].token.None? then Release(w, t)
      else if InUse(w.db, pc.a) then Release(w, t)
      else At(w, t, CutFree(pc.a))
    case CommitCut(t) =>
      var pc := PcOf(w, t);
      if pc.CutFree? && pc.a in w.db.accounts
      then Release(w.(db := w.db.(accounts := w.db.accounts[pc.a := Cut(w.db.accounts[pc.a])])), t) else w
    case BeginActivation(t, a) =>
      if PcOf(w, t).Idle? && Activatable(w.db, a) then At(w, t, Calling(a)) else w
    case EndActivation(t, refused, now) =>
      var pc := PcOf(w, t);
      if !pc.Calling? || AccountBlocked(w, t, pc.a) then w
      else At(w.(db := Activated(w.db, pc.a, refused, now)), t, Idle)
    case Rollback(t) => Release(w, t)
    case Join(a, owner, token) =>
      if a in w.db.accounts then w
      else w.(db := w.db.(accounts := w.db.accounts[a := Account(Some(owner), Pending, Some(token), None)]))
    case Share(a, status) =>
      if a in w.db.accounts && w.db.accounts[a].owner.Some? then w
      else w.(db := w.db.(accounts := w.db.accounts[a := Account(None, status, None, None)]))
  }

  lemma ReleaseKeepsRows()
    ensures forall w: World, t: Thread :: Release(w, t).db == w.db
  {
  }

  // --- the invariant ---

  predicate MappingSafe(db: Db, l: LocationId)
    requires l in db.mappings
  {
    && Serves(db, db.mappings[l], l)
    && (db.accounts[db.mappings[l]].owner.Some? ==> db.accounts[db.mappings[l]].status.Active?)
  }

  predicate HoldsAccount(pc: Pc, a: AccountId) {
    (pc.SetHas? || pc.SetNoRow? || pc.SetConflict? || pc.SetRow? || pc.CutHas? || pc.CutFree?) && pc.a == a
  }

  predicate HoldsRow(pc: Pc, l: LocationId) { (pc.SetRow? || pc.ClearRow?) && pc.l == l }

  predicate ThreadInv(w: World, t: Thread) {
    var pc := PcOf(w, t);
    && (pc.SetWants? || pc.SetHas? || pc.SetNoRow? || pc.SetConflict? || pc.SetRow? ==> Serves(w.db, pc.a, pc.l))
    && (pc.CutHas? || pc.CutFree? ==> pc.a in w.db.accounts && w.db.accounts[pc.a].owner.Some?)
    && ((pc.SetHas? || pc.SetNoRow? || pc.SetConflict? || pc.SetRow?) && w.db.accounts[pc.a].owner.Some? ==>
          pc.a in w.accountLock && w.accountLock[pc.a] == t && w.db.accounts[pc.a].status.Active?)
    && (pc.CutHas? || pc.CutFree? ==> pc.a in w.accountLock && w.accountLock[pc.a] == t)
    && (pc.CutFree? ==> !InUse(w.db, pc.a))
    && (pc.SetRow? || pc.ClearRow? ==> pc.l in w.rowLock && w.rowLock[pc.l] == t)
  }

  ghost predicate Inv(w: World) {
    && (forall l :: l in w.db.mappings ==> MappingSafe(w.db, l))
    && (forall t :: ThreadInv(w, t))
    && (forall a :: a in w.accountLock ==> HoldsAccount(PcOf(w, w.accountLock[a]), a))
    && (forall l :: l in w.rowLock ==> HoldsRow(PcOf(w, w.rowLock[l]), l))
  }

  lemma ThreadKnown(w: World, t: Thread)
    requires Inv(w)
    ensures ThreadInv(w, t)
  {
    hide ThreadInv, MappingSafe;
  }

  lemma LocksKnown(w: World, a: AccountId, l: LocationId)
    requires Inv(w)
    ensures a in w.accountLock ==> HoldsAccount(PcOf(w, w.accountLock[a]), a)
    ensures l in w.rowLock ==> HoldsRow(PcOf(w, w.rowLock[l]), l)
    ensures l in w.db.mappings ==> MappingSafe(w.db, l)
  {
    hide ThreadInv, MappingSafe, HoldsAccount, HoldsRow;
  }

  /** Own numbers and the merchants of locations never change; only a PENDING row is
      activated, and only a lock holder's commit suspends a row. */
  lemma MappingStaysSafe(w: World, s: Step, l: LocationId)
    requires Inv(w) && l in Next(w, s).db.mappings
    ensures MappingSafe(Next(w, s).db, l)
  {
    hide Inv, Activatable;
    LocksKnown(w, 0, l);
    if s.CommitSet? || s.CommitCut? {
      ThreadKnown(w, s.t);
      if s.CommitCut? && PcOf(w, s.t).CutFree? && l in w.db.mappings {
        assert w.db.mappings[l] != PcOf(w, s.t).a;
      }
    }
  }

  /** The steps that may end a transaction. */
  predicate Ends(s: Step) { s.FindAgain? || s.CommitSet? || s.CommitClear? || s.CommitCut? || s.CheckUse? || s.Rollback? }

  lemma CommitKeepsThread(w: World, s: Step, u: Thread)
    requires Inv(w) && Ends(s) && !s.FindAgain?
    ensures ThreadInv(Next(w, s), u)
  {
    hide Inv, HoldsAccount, HoldsRow, MappingSafe;
    ThreadKnown(w, u);
    ThreadKnown(w, s.t);
  }

  lemma FindAgainKeepsThread(w: World, s: Step, u: Thread)
    requires Inv(w) && s.FindAgain?
    ensures ThreadInv(Next(w, s), u)
  {
    hide Inv, InUse, Serves, MappingSafe, HoldsAccount;
    ThreadKnown(w, u);
    ThreadKnown(w, s.t);
    if PcOf(w, s.t).SetConflict? { LocksKnown(w, 0, PcOf(w, s.t).l); }
  }

  lemma ActiveLockKeepsThread(w: World, s: Step, u: Thread)
    requires Inv(w) && s.LockActive?
    ensures ThreadInv(Next(w, s), u)
  {
    hide Inv, Release, InUse, HoldsRow;
    ThreadKnown(w, u);
    if PcOf(w, s.t).SetWants? { LocksKnown(w, PcOf(w, s.t).a, 0); }
  }

  lemma CutLockKeepsThread(w: World, s: Step, u: Thread)
    requires Inv(w) && s.LockCut?
    ensures ThreadInv(Next(w, s), u)
  {
    hide Inv, Release, InUse, Serves, HoldsRow;
    ThreadKnown(w, u);
    if PcOf(w, s.t).CutWants? { LocksKnown(w, PcOf(w, s.t).a, 0); }
  }

  lemma RowLockKeepsThread(w: World, s: Step, u: Thread)
    requires Inv(w) && (s.FindRow? || s.Insert? || s.FindCleared?)
    ensures ThreadInv(Next(w, s), u)
  {
    hide Inv, Release, InUse, Serves;
    ThreadKnown(w, u);
    ThreadKnown(w, s.t);
    var pc := PcOf(w, s.t);
    if pc.SetHas? || pc.SetNoRow? || pc.ClearWants? { LocksKnown(w, 0, pc.l); }
  }

  lemma BeginKeepsThread(w: World, s: Step, u: Thread)
    requires Inv(w) && (s.BeginSet? || s.BeginClear? || s.BeginCut? || s.BeginActivation?)
    ensures ThreadInv(Next(w, s), u)
  {
    hide Inv, Release, InUse, Activatable;
    ThreadKnown(w, u);
  }

  lemma AccountKeepsThread(w: World, s: Step, u: Thread)
    requires Inv(w) && (s.EndActivation? || s.Join? || s.Share?)
    ensures ThreadInv(Next(w, s), u)
  {
    hide Inv, Release;
    ThreadKnown(w, u);
    if s.EndActivation? { ThreadKnown(w, s.t); }
  }

  predicate AccountOwned(w: World, a: AccountId) {
    a in w.accountLock ==> HoldsAccount(PcOf(w, w.accountLock[a]), a)
  }

  predicate RowOwned(w: World, l: LocationId) {
    l in w.rowLock ==> HoldsRow(PcOf(w, w.rowLock[l]), l)
  }

  lemma EndKeepsOwners(w: World, s: Step, a: AccountId, l: LocationId)
    requires AccountOwned(w, a) && RowOwned(w, l) && Ends(s)
    ensures AccountOwned(Next(w, s), a) && RowOwned(Next(w, s), l)
  {
    hide InUse, Serves, ClearSender, Cut;
  }

  lemma AccountStaysOwned(w: World, s: Step, a: AccountId)
    requires AccountOwned(w, a) && !Ends(s)
    ensures AccountOwned(Next(w, s), a)
  {
    hide InUse, Serves, Activatable, Activated, Release;
  }

  lemma RowStaysOwned(w: World, s: Step, l: LocationId)
    requires RowOwned(w, l) && !Ends(s)
    ensures RowOwned(Next(w, s), l)
  {
    hide InUse, Serves, Activatable, Activated, Release;
  }

  lemma OwnersStay(w: World, s: Step, a: AccountId, l: LocationId)
    requires Inv(w)
    ensures AccountOwned(Next(w, s), a) && RowOwned(Next(w, s), l)
  {
    hide Next, HoldsAccount, HoldsRow, Inv;
    LocksKnown(w, a, l);
    if Ends(s) {
      EndKeepsOwners(w, s, a, l);
    } else {
      AccountStaysOwned(w, s, a);
      RowStaysOwned(w, s, l);
    }
  }

  lemma NextKeeps(w: World, s: Step)
    requires Inv(w)
    ensures Inv(Next(w, s))
  {
    hide Next, ThreadInv, MappingSafe, HoldsAccount, HoldsRow;
    forall l | l in Next(w, s).db.mappings ensures MappingSafe(Next(w, s).db, l) { MappingStaysSafe(w, s, l); }
    forall t ensures ThreadInv(Next(w, s), t) {
      if s.FindAgain? { FindAgainKeepsThread(w, s, t); }
      else if Ends(s) { CommitKeepsThread(w, s, t); }
      else if s.LockActive? { ActiveLockKeepsThread(w, s, t); }
      else if s.LockCut? { CutLockKeepsThread(w, s, t); }
      else if s.FindRow? || s.Insert? || s.FindCleared? { RowLockKeepsThread(w, s, t); }
      else if s.EndActivation? || s.Join? || s.Share? { AccountKeepsThread(w, s, t); }
      else { BeginKeepsThread(w, s, t); }
    }
    forall a | a in Next(w, s).accountLock ensures HoldsAccount(PcOf(Next(w, s), Next(w, s).accountLock[a]), a) {
      OwnersStay(w, s, a, 0);
    }
    forall l | l in Next(w, s).rowLock ensures HoldsRow(PcOf(Next(w, s), Next(w, s).rowLock[l]), l) {
      OwnersStay(w, s, 0, l);
    }
  }

  function Run(w: World, steps: seq<Step>): World
    decreases |steps|
  {
    if steps == [] then w else Run(Next(w, steps[0]), steps[1..])
  }

  predicate Initial(w: World) {
    w.db.mappings == map[] && w.accountLock == map[] && w.rowLock == map[] && w.pcs == map[]
  }

  lemma {:induction false} RunKeeps(w: World, steps: seq<Step>)
    requires Inv(w)
    ensures Inv(Run(w, steps))
    decreases |steps|
  {
    hide Inv, Next;
    if steps != [] {
      NextKeeps(w, steps[0]);
      RunKeeps(Next(w, steps[0]), steps[1..]);
    }
  }

  // --- the promises ---

  /** In every interleaving every mapping to an own number points to an ACTIVE
      account of the location's own merchant. */
  lemma MappedNumbersAreActive(w: World, steps: seq<Step>, l: LocationId)
    requires Initial(w) && l in Run(w, steps).db.mappings
    ensures var db := Run(w, steps).db;
            var a := db.mappings[l];
            && a in db.accounts && l in db.homes
            && (db.accounts[a].owner.Some? ==> db.accounts[a].owner == Some(db.homes[l]) && db.accounts[a].status.Active?)
  {
    assert Inv(w);
    RunKeeps(w, steps);
    LocksKnown(Run(w, steps), 0, l);
  }

  /** So a mapped location can only lose its sender by the shared number being switched off. */
  lemma OwnNumberAlwaysSends(w: World, steps: seq<Step>, l: LocationId)
    requires Initial(w) && l in Run(w, steps).db.mappings
    ensures var db := Run(w, steps).db;
            var a := db.mappings[l];
            a in db.accounts && (SenderOf(db, l) == Some(a) || (db.accounts[a].owner.None? && !db.accounts[a].status.Active?))
  {
    MappedNumbersAreActive(w, steps, l);
  }

  /** A suspended own number stays suspended, and without its token stays without
      it, whatever activation was already in flight. */
  lemma {:induction false} DisconnectIsNeverUndone(w: World, steps: seq<Step>, a: AccountId)
    requires a in w.db.accounts && w.db.accounts[a].owner.Some? && w.db.accounts[a].status.Suspended?
    ensures var after := Run(w, steps).db;
            && a in after.accounts && after.accounts[a].owner == w.db.accounts[a].owner && after.accounts[a].status.Suspended?
            && (w.db.accounts[a].token.None? ==> after.accounts[a].token.None?)
    decreases |steps|
  {
    if steps != [] {
      SuspendedStays(w, steps[0], a);
      DisconnectIsNeverUndone(Next(w, steps[0]), steps[1..], a);
    }
  }

  lemma SuspendedStays(w: World, s: Step, a: AccountId)
    requires a in w.db.accounts && w.db.accounts[a].owner.Some? && w.db.accounts[a].status.Suspended?
    ensures var after := Next(w, s).db;
            && a in after.accounts && after.accounts[a].owner == w.db.accounts[a].owner && after.accounts[a].status.Suspended?
            && (w.db.accounts[a].token.None? ==> after.accounts[a].token.None?)
  {
    hide InUse, Serves;
  }

  /** How an own number's row moves. An answered activation of a PENDING number makes
      it ACTIVE, keeping a first connection time, or on a refusal SUSPENDED with its
      token; a disconnect, of a number no location uses, SUSPENDED without one. */
  lemma OwnNumberMovesExactly(w: World, s: Step, a: AccountId)
    requires Inv(w) && a in w.db.accounts && w.db.accounts[a].owner.Some?
    ensures var was, after := w.db.accounts[a], Next(w, s).db.accounts;
            var answered := s.EndActivation? && PcOf(w, s.t) == Calling(a) && !AccountBlocked(w, s.t, a) && was.status == Pending;
            var cut := s.CommitCut? && PcOf(w, s.t) == CutFree(a);
            && a in after
            && after[a] == (if answered && s.refused then Account(was.owner, Suspended, was.token, was.connectedAt)
                            else if answered then Account(was.owner, Active, was.token, if was.connectedAt == None then Some(s.now) else was.connectedAt)
                            else if cut then Account(was.owner, Suspended, None, was.connectedAt)
                            else was)
            && (cut ==> forall l :: l in w.db.mappings ==> w.db.mappings[l] != a)
  {
    hide Inv, Serves, Release, AccountBlocked;
    ReleaseKeepsRows();
    if s.CommitCut? { ThreadKnown(w, s.t); }
  }

  /** An activation calls the provider only for an own number that is PENDING and has its token. */
  lemma ActivationStartsExactly(w: World, t: Thread, a: AccountId)
    requires PcOf(w, t) == Idle
    ensures PcOf(Next(w, BeginActivation(t, a)), t) ==
              if a in w.db.accounts && w.db.accounts[a].owner != None && w.db.accounts[a].status == Pending && w.db.accounts[a].token != None
              then Calling(a) else Idle
  {
  }

  /** A location sends from the account it is mapped to, while that is ACTIVE. */
  lemma SenderExactly(db: Db, l: LocationId, a: AccountId)
    ensures SenderOf(db, l) == Some(a) <==>
              l in db.mappings && db.mappings[l] == a && a in db.accounts && db.accounts[a].status == Active
  {
  }

  /** How a location's mapping moves: to the account of a set that commits - which then
      may serve the location and, an own number, is ACTIVE - or away by a clear. */
  lemma MappingMovesExactly(w: World, s: Step, l: LocationId)
    requires Inv(w)
    ensures var before, after := w.db.mappings, Next(w, s).db.mappings;
            if s.CommitSet? && PcOf(w, s.t).SetRow? && PcOf(w, s.t).l == l then
              var a := PcOf(w, s.t).a;
              && l in after && after[l] == a && a in w.db.accounts && l in w.db.homes
              && (w.db.accounts[a].owner == None ||
                    (w.db.accounts[a].owner == Some(w.db.homes[l]) && w.db.accounts[a].status == Active))
            else if s.CommitClear? && PcOf(w, s.t) == ClearRow(l) then l !in after
            else (l in after <==> l in before) && (l in after ==> after[l] == before[l])
  {
    hide Inv, Activatable, InUse, Release;
    ReleaseKeepsRows();
    if s.CommitSet? { ThreadKnown(w, s.t); }
  }

  predicate CanMove(w: World, t: Thread) {
    var pc := PcOf(w, t);
    && !pc.Idle?
    && (pc.SetWants? || pc.CutWants? || pc.Calling? ==> !AccountBlocked(w, t, pc.a))
    && (pc.SetHas? || pc.SetNoRow? || pc.SetConflict? || pc.ClearWants? ==> !RowBlocked(w, t, pc.l))
  }

  /** Taking the account before the mapping admits no deadlock: while any operation
      is open, some open operation need not wait. */
  lemma NoDeadlock(w: World, steps: seq<Step>, t: Thread)
    requires Initial(w) && !PcOf(Run(w, steps), t).Idle?
    ensures exists u :: CanMove(Run(w, steps), u)
  {
    assert Inv(w);
    RunKeeps(w, steps);
    var now := Run(w, steps);
    hide Run, Inv, ThreadInv;
    var u := t;
    if !CanMove(now, u) && (PcOf(now, u).SetWants? || PcOf(now, u).CutWants? || PcOf(now, u).Calling?) {
      LocksKnown(now, PcOf(now, u).a, 0);
      u := now.accountLock[PcOf(now, u).a];
    }
    if !CanMove(now, u) {
      LocksKnown(now, 0, PcOf(now, u).l);
      u := now.rowLock[PcOf(now, u).l];
    }
    assert CanMove(now, u);
  }

  // --- alone, the statements are the operation ---

  predicate Quiet(w: World, t: Thread) {
    w.accountLock == map[] && w.rowLock == map[] && PcOf(w, t).Idle?
  }

  /** With no other operation open, the interleaved statements of a set, a clear, a
      disconnect and an activation commit exactly the sequential operation. */
  lemma AloneSetIsSequential(w: World, t: Thread, l: LocationId, a: AccountId, seen: Status)
    requires Quiet(w, t) && l in w.db.homes
    ensures var w1 := Next(w, BeginSet(t, l, a, seen));
            var w3 := Next(Next(w1, LockActive(t)), FindRow(t));
            Next(Next(w3, Insert(t)), CommitSet(t)).db == SetSender(w.db, l, a, seen).0
  {
    var w1 := Next(w, BeginSet(t, l, a, seen));
    var w2 := Next(w1, LockActive(t));
    if seen.Active? && Serves(w.db, a, l) {
      assert w1 == At(w, t, SetWants(l, a));
      if w.db.accounts[a].status.Active? {
        assert PcOf(w2, t) == SetHas(l, a) && w2.rowLock == map[] && w2.db == w.db;
        var w4 := Next(Next(w2, FindRow(t)), Insert(t));
        assert PcOf(w4, t) == SetRow(l, a) && w4.db == w.db by { hide Release; }
      } else {
        assert PcOf(w2, t) == Idle && w2.db == w.db;
      }
    } else {
      assert w1 == w && w2 == w;
    }
  }

  lemma AloneCutIsSequential(w: World, t: Thread, a: AccountId)
    requires Quiet(w, t)
    ensures var w2 := Next(Next(w, BeginCut(t, a)), LockCut(t));
            Next(Next(w2, CheckUse(t)), CommitCut(t)).db == Disconnect(w.db, a).0
  {
    var w1 := Next(w, BeginCut(t, a));
    assert w1 == At(w, t, CutWants(a));
    var w2 := Next(w1, LockCut(t));
    if a in w.db.accounts && w.db.accounts[a].owner.Some? {
      assert PcOf(w2, t) == CutHas(a) && w2.db == w.db;
      var w3 := Next(w2, CheckUse(t));
      assert w3.db == w.db;
      if (w.db.accounts[a].status.Suspended? && w.db.accounts[a].token.None?) || InUse(w.db, a) {
        assert PcOf(w3, t) == Idle;
      } else {
        assert PcOf(w3, t) == CutFree(a);
      }
    } else {
      assert PcOf(w2, t) == Idle && w2.db == w.db;
    }
  }

  lemma AloneClearIsSequential(w: World, t: Thread, l: LocationId)
    requires Quiet(w, t)
    ensures Next(Next(Next(w, BeginClear(t, l)), FindCleared(t)), CommitClear(t)).db == ClearSender(w.db, l)
  {
    var w1 := Next(w, BeginClear(t, l));
    assert w1 == At(w, t, ClearWants(l));
    if l !in w.db.mappings { assert ClearSender(w.db, l).mappings == w.db.mappings; }
  }

  lemma AloneActivationIsSequential(w: World, t: Thread, a: AccountId, refused: bool, now: Time)
    requires Quiet(w, t)
    ensures Next(Next(w, BeginActivation(t, a)), EndActivation(t, refused, now)).db
         == if Activatable(w.db, a) then Activated(w.db, a, refused, now) else w.db
  {
  }
}
