/** The legislator controller: the ledger registration flag (register, remove, sync), the
    status reports that compare the flag with the ledger, and the soft delete. */
module LegisladorController {
  import opened Base
  import opened BlockchainService
  import opened UserModel
  import opened Store

  /** The ledger's membership answer for each wallet, as `verificarLegislador` receives it. */
  type Membership = string -> LedgerResult<bool>

  // ---------------------------------------------------------------------------------
  // getLegislador and getMyBlockchainStatus

  datatype SyncStatus = InSync | OutOfSync | StatusError

  /** The `blockchainStatus` object of `getLegislador`. */
  datatype BlockchainStatus = BlockchainStatus(registeredOnBlockchain: Option<bool>, syncStatus: SyncStatus)

  /** `blockchainStatus`: null unless the local flag is set; otherwise the ledger's answer and
      whether it agrees with the flag. `verificarLegislador` cannot fail, so the `error` status
      of the catch is never produced. */
  function LegisladorStatus(u: User, call: LedgerResult<bool>): (r: Option<BlockchainStatus>)
    ensures r.Some? <==> u.isRegisteredOnBlockchain
    ensures r.Some? ==> r.value.registeredOnBlockchain == Some(call == LedgerOk(true))
    ensures r.Some? ==> (r.value.syncStatus == InSync <==> call == LedgerOk(true))
    ensures r.Some? ==> r.value.syncStatus != StatusError
  {
    if u.isRegisteredOnBlockchain then
      var isRegistered := VerificarLegislador(call);
      Some(BlockchainStatus(Some(isRegistered),
                            if isRegistered == u.isRegisteredOnBlockchain then InSync else OutOfSync))
    else None
  }

  /** The `data` of `getLegislador`. */
  datatype LegisladorView = LegisladorView(legislador: User, blockchainStatus: Option<BlockchainStatus>)

  /** `getLegislador`: the stored record and its ledger status, or 404. */
  function GetLegislador(st: DbState, id: Id, member: Membership): (r: Reply<LegisladorView>)
    ensures r.Done? <==> id in st.users
    ensures !r.Done? ==> r == Refused(NotFound)
    ensures r.Done? ==> r.value.legislador == st.users[id]
    ensures r.Done? ==> (r.value.blockchainStatus.Some? <==> st.users[id].isRegisteredOnBlockchain)
    ensures r.Done? && r.value.blockchainStatus.Some? ==>
      (r.value.blockchainStatus.value.syncStatus == InSync <==> member(st.users[id].walletAddress) == LedgerOk(true))
  {
    if id !in st.users then Refused(NotFound)
    else
      var u := st.users[id];
      Done(LegisladorView(u, LegisladorStatus(u, member(u.walletAddress))))
  }

  /** The `data` of `getMyBlockchainStatus`. */
  datatype MyStatus = MyStatus(walletAddress: string, databaseStatus: bool, blockchainStatus: bool,
                               syncStatus: SyncStatus, canVote: bool)

  /** `getMyBlockchainStatus` for the signed-in user: the flag, the ledger's answer, whether
      they agree, and whether the user may vote. */
  function MyBlockchainStatus(u: User, call: LedgerResult<bool>): (r: MyStatus)
    ensures r.canVote <==> call == LedgerOk(true) && u.isActive
    ensures r.syncStatus == InSync <==> (call == LedgerOk(true)) == u.isRegisteredOnBlockchain
    ensures r.syncStatus != StatusError
    ensures r.databaseStatus == u.isRegisteredOnBlockchain && r.walletAddress == u.walletAddress
    ensures r.blockchainStatus <==> call == LedgerOk(true)
  {
    var isRegistered := VerificarLegislador(call);
    MyStatus(u.walletAddress, u.isRegisteredOnBlockchain, isRegistered,
             if isRegistered == u.isRegisteredOnBlockchain then InSync else OutOfSync,
             isRegistered && u.isActive)
  }

  // ---------------------------------------------------------------------------------
  // registrarEnBlockchain and eliminarDeBlockchain

  /** The record with its registration flag set to `b`. */
  function Flagged(u: User, b: bool): User
  {
    u.(isRegisteredOnBlockchain := b)
  }

  /** `registrarEnBlockchain`: refused for a registered legislator; a failed ledger call is
      reported with the flag untouched; otherwise the flag is set and the record saved. */
  function Registrar(st: DbState, id: Id, call: LedgerResult<Receipt>): Step<Receipt>
  {
    if id !in st.users then Step(Refused(NotFound), st)
    else if st.users[id].isRegisteredOnBlockchain then Step(Refused(AlreadyRegistered), st)
    else match Wrap(call)
      case LedgerErr(m) => Step(LedgerFailed(m), st)
      case LedgerOk(receipt) =>
        var u2 := Flagged(st.users[id], true);
        if CanSaveUser(st, id, u2) then Step(Done(receipt), SetUser(st, id, u2))
        else Step(SaveRejected, st)
  }

  method RegistrarEnBlockchain(db: Db, id: Id, call: LedgerResult<Receipt>) returns (reply: Reply<Receipt>)
    modifies db
    ensures Step(reply, db.State()) == Registrar(old(db.State()), id, call)
  {
    if id !in db.users {
      return Refused(NotFound);
    }
    var legislador := db.users[id];
    if legislador.isRegisteredOnBlockchain {
      return Refused(AlreadyRegistered);
    }
    var result := Wrap(call);
    if result.LedgerErr? {
      return LedgerFailed(result.cause);
    }
    legislador := legislador.(isRegisteredOnBlockchain := true);
    if !CanSaveUser(db.State(), id, legislador) {
      return SaveRejected;
    }
    db.users := db.users[id := legislador];
    reply := Done(result.value);
  }

  /** `eliminarDeBlockchain`: the mirror image, refused for a legislator who is not registered. */
  function Eliminar(st: DbState, id: Id, call: LedgerResult<Receipt>): Step<Receipt>
  {
    if id !in st.users then Step(Refused(NotFound), st)
    else if !st.users[id].isRegisteredOnBlockchain then Step(Refused(NotRegistered), st)
    else match Wrap(call)
      case LedgerErr(m) => Step(LedgerFailed(m), st)
      case LedgerOk(receipt) =>
        var u2 := Flagged(st.users[id], false);
        if CanSaveUser(st, id, u2) then Step(Done(receipt), SetUser(st, id, u2))
        else Step(SaveRejected, st)
  }

  method EliminarDeBlockchain(db: Db, id: Id, call: LedgerResult<Receipt>) returns (reply: Reply<Receipt>)
    modifies db
    ensures Step(reply, db.State()) == Eliminar(old(db.State()), id, call)
  {
    if id !in db.users {
      return Refused(NotFound);
    }
    var legislador := db.users[id];
    if !legislador.isRegisteredOnBlockchain {
      return Refused(NotRegistered);
    }
    var result := Wrap(call);
    if result.LedgerErr? {
      return LedgerFailed(result.cause);
    }
    legislador := legislador.(isRegisteredOnBlockchain := false);
    if !CanSaveUser(db.State(), id, legislador) {
      return SaveRejected;
    }
    db.users := db.users[id := legislador];
    reply := Done(result.value);
  }

  /** In a valid database, registration succeeds exactly for a stored legislator off the
      ledger whose ledger call succeeds, and then only the flag changes, to true; a registered
      legislator is refused; a ledger failure reports the prefixed cause; nothing changes
      unless it succeeds. */
  lemma RegistrarEffect(st: DbState, id: Id, call: LedgerResult<Receipt>)
    requires Valid(st)
    ensures var r := Registrar(st, id, call);
      && (r.reply.Done? <==> id in st.users && !st.users[id].isRegisteredOnBlockchain && call.LedgerOk?)
      && (r.reply == Refused(AlreadyRegistered) <==> id in st.users && st.users[id].isRegisteredOnBlockchain)
      && (r.reply.Done? ==> r.reply.value == call.value && r.st == SetUser(st, id, Flagged(st.users[id], true)))
      && (r.reply.LedgerFailed? ==> call.LedgerErr? && r.reply.message == BLOCKCHAIN_ERROR_PREFIX + call.cause)
      && (!r.reply.Done? ==> r.st == st)
      && !r.reply.SaveRejected?
  {
    if id in st.users {
      ResaveUserAdmitted(st, id, Flagged(st.users[id], true));
    }
  }

  /** The mirror of `RegistrarEffect` for removal. */
  lemma EliminarEffect(st: DbState, id: Id, call: LedgerResult<Receipt>)
    requires Valid(st)
    ensures var r := Eliminar(st, id, call);
      && (r.reply.Done? <==> id in st.users && st.users[id].isRegisteredOnBlockchain && call.LedgerOk?)
      && (r.reply == Refused(NotRegistered) <==> id in st.users && !st.users[id].isRegisteredOnBlockchain)
      && (r.reply.Done? ==> r.reply.value == call.value && r.st == SetUser(st, id, Flagged(st.users[id], false)))
      && (r.reply.LedgerFailed? ==> call.LedgerErr? && r.reply.message == BLOCKCHAIN_ERROR_PREFIX + call.cause)
      && (!r.reply.Done? ==> r.st == st)
      && !r.reply.SaveRejected?
  {
    if id in st.users {
      ResaveUserAdmitted(st, id, Flagged(st.users[id], false));
    }
  }

  lemma RegistrarPreserves(st: DbState, id: Id, call: LedgerResult<Receipt>)
    requires Valid(st) && Coherent(st)
    ensures Valid(Registrar(st, id, call).st) && Coherent(Registrar(st, id, call).st)
  {
    var r := Registrar(st, id, call);
    if r.reply.Done? {
      SetUserValid(st, id, Flagged(st.users[id], true));
    }
  }

  lemma EliminarPreserves(st: DbState, id: Id, call: LedgerResult<Receipt>)
    requires Valid(st) && Coherent(st)
    ensures Valid(Eliminar(st, id, call).st) && Coherent(Eliminar(st, id, call).st)
  {
    var r := Eliminar(st, id, call);
    if r.reply.Done? {
      SetUserValid(st, id, Flagged(st.users[id], false));
    }
  }

  /** Setting the flag of an admitted record keeps it admitted, and the record as it was is
      admitted again over the flagged one. */
  lemma FlagFlipAdmitted(st: DbState, id: Id, b: bool)
    requires id in st.users && CanSaveUser(st, id, st.users[id])
    ensures CanSaveUser(st, id, Flagged(st.users[id], b))
    ensures CanSaveUser(SetUser(st, id, Flagged(st.users[id], b)), id, st.users[id])
  {
  }

  /** Registering a legislator and then removing them, both on a working ledger, restores the
      database exactly. */
  lemma RegistrarEliminarRoundTrip(st: DbState, id: Id, c1: LedgerResult<Receipt>, c2: LedgerResult<Receipt>)
    requires Valid(st) && id in st.users && !st.users[id].isRegisteredOnBlockchain
    requires c1.LedgerOk? && c2.LedgerOk?
    ensures Eliminar(Registrar(st, id, c1).st, id, c2).st == st
  {
    var u := st.users[id];
    assert CanSaveUser(st, id, u);
    FlagFlipAdmitted(st, id, true);
    var st1 := SetUser(st, id, Flagged(u, true));
    assert Registrar(st, id, c1).st == st1;
    assert Flagged(Flagged(u, true), false) == u;
    assert st.users[id := u] == st.users;
  }

  /** Removing a registered legislator and then registering them again, both on a working
      ledger, restores the database exactly. */
  lemma EliminarRegistrarRoundTrip(st: DbState, id: Id, c1: LedgerResult<Receipt>, c2: LedgerResult<Receipt>)
    requires Valid(st) && id in st.users && st.users[id].isRegisteredOnBlockchain
    requires c1.LedgerOk? && c2.LedgerOk?
    ensures Registrar(Eliminar(st, id, c1).st, id, c2).st == st
  {
    var u := st.users[id];
    assert CanSaveUser(st, id, u);
    FlagFlipAdmitted(st, id, false);
    var st1 := SetUser(st, id, Flagged(u, false));
    assert Eliminar(st, id, c1).st == st1;
    assert Flagged(Flagged(u, false), true) == u;
    assert st.users[id := u] == st.users;
  }

  // ---------------------------------------------------------------------------------
  // deleteLegislador

  /** `deleteLegislador`: a soft delete that marks the account inactive with a raw update, no
      validators run. A removal from the ledger is requested first when the flag is set, its
      failure is ignored, and the flag is left as it was. The reply's value says whether the
      removal was requested. */
  function SoftDelete(st: DbState, id: Id): Step<bool>
  {
    if id !in st.users then Step(Refused(NotFound), st)
    else
      var u := st.users[id];
      Step(Done(u.isRegisteredOnBlockchain), SetUser(st, id, u.(isActive := false)))
  }

  method DeleteLegislador(db: Db, id: Id) returns (reply: Reply<bool>)
    modifies db
    ensures Step(reply, db.State()) == SoftDelete(old(db.State()), id)
  {
    if id !in db.users {
      return Refused(NotFound);
    }
    var legislador := db.users[id];
    var attempted := false;
    if legislador.isRegisteredOnBlockchain {
      attempted := true;
    }
    db.users := db.users[id := legislador.(isActive := false)];
    reply := Done(attempted);
  }

  /** The delete succeeds for every stored user; it requests the ledger removal exactly when
      the flag is set, changes `isActive` to false and nothing else, and in particular keeps the
      flag, so a removed legislator whose ledger removal went through reads as out of sync. */
  lemma DeleteLegisladorEffect(st: DbState, id: Id, call: LedgerResult<bool>)
    ensures var r := SoftDelete(st, id);
      && (r.reply.Done? <==> id in st.users)
      && (!r.reply.Done? ==> r.st == st)
      && (r.reply.Done? ==>
            && (r.reply.value <==> st.users[id].isRegisteredOnBlockchain)
            && r.st.users[id] == st.users[id].(isActive := r.st.users[id].isActive)
            && !r.st.users[id].isActive
            && r.st.users.Keys == st.users.Keys
            && (forall k :: k in st.users && k != id ==> r.st.users[k] == st.users[k])
            && r.st.sesiones == st.sesiones && r.st.leyes == st.leyes
            && !MyBlockchainStatus(r.st.users[id], call).canVote
            && (st.users[id].isRegisteredOnBlockchain && call == LedgerOk(false) ==>
                  MyBlockchainStatus(r.st.users[id], call).syncStatus == OutOfSync))
  {
  }

  lemma DeleteLegisladorPreserves(st: DbState, id: Id)
    requires Valid(st) && Coherent(st)
    ensures Valid(SoftDelete(st, id).st) && Coherent(SoftDelete(st, id).st)
  {
    if id in st.users {
      var u2 := st.users[id].(isActive := false);
      ResaveUserAdmitted(st, id, u2);
      SetUserValid(st, id, u2);
    }
  }

  // ---------------------------------------------------------------------------------
  // syncronizarConBlockchain

  /** One entry of `syncResults`: the ledger's answer and whether the record changed, or the
      error of a save the database rejected. */
  datatype UserSyncEntry = Checked(beforeSync: bool, afterSync: bool, updated: bool) | SaveFailed

  /** The `data` of the sync: how many legislators were visited and one entry each. */
  datatype SyncSummary = SyncSummary(totalLegisladores: nat, results: map<Id, UserSyncEntry>)

  /** The users with role `legislador` (`User.find({ role: 'legislador' })`). */
  function LegisladoresOf(st: DbState): (r: set<Id>)
    ensures forall k :: k in r <==> k in st.users && st.users[k].role == Legislador
  {
    set k | k in st.users && st.users[k].role == Legislador
  }

  /** The ledger's answer for a user. */
  function OnLedger(u: User, member: Membership): bool
  {
    VerificarLegislador(member(u.walletAddress))
  }

  /** The record of user `k` after the sync: it takes the ledger's answer when that differs
      from the flag and the save is admitted. */
  function SyncedUser(st: DbState, k: Id, member: Membership): (r: User)
    requires k in st.users
    ensures SameUserKeys(r, st.users[k])
    ensures r == Flagged(st.users[k], r.isRegisteredOnBlockchain)
  {
    var u := st.users[k];
    var isReg := OnLedger(u, member);
    if isReg != u.isRegisteredOnBlockchain && CanSaveUser(st, k, Flagged(u, isReg)) then Flagged(u, isReg) else u
  }

  /** The entry of user `k`. `beforeSync` is the negation of the ledger's answer. */
  function UserEntry(st: DbState, k: Id, member: Membership): UserSyncEntry
    requires k in st.users
  {
    var u := st.users[k];
    var isReg := OnLedger(u, member);
    var needsUpdate := isReg != u.isRegisteredOnBlockchain;
    if needsUpdate && !CanSaveUser(st, k, Flagged(u, isReg)) then SaveFailed
    else Checked(!isReg, isReg, needsUpdate)
  }

  function SyncUsers(st: DbState, member: Membership): map<Id, User>
  {
    map k | k in st.users :: if k in LegisladoresOf(st) then SyncedUser(st, k, member) else st.users[k]
  }

  function SyncUserReport(st: DbState, member: Membership): map<Id, UserSyncEntry>
  {
    map k | k in LegisladoresOf(st) :: UserEntry(st, k, member)
  }

  /** `syncronizarConBlockchain`: every legislator's flag follows the ledger. */
  function Syncronizar(st: DbState, member: Membership): Step<SyncSummary>
  {
    Step(Done(SyncSummary(|LegisladoresOf(st)|, SyncUserReport(st, member))), st.(users := SyncUsers(st, member)))
  }

  /** For each legislator, asks the ledger whether the wallet is registered, saves the flag
      when it differs, and records an entry; a rejected save is recorded and the loop goes on. */
  method SyncronizarConBlockchain(db: Db, member: Membership) returns (reply: Reply<SyncSummary>)
    modifies db
    ensures Step(reply, db.State()) == Syncronizar(old(db.State()), member)
  {
    ghost var st0 := db.State();
    var legisladores := LegisladoresOf(db.State());
    var syncResults: map<Id, UserSyncEntry> := map[];
    var remaining := legisladores;
    assert legisladores - remaining == {};
    UsersSoFarStart(st0, member);
    while remaining != {}
      invariant remaining <= legisladores
      invariant db.sesiones == st0.sesiones && db.leyes == st0.leyes && db.nextId == st0.nextId
      invariant db.users == UsersSyncedSoFar(st0, member, legisladores - remaining)
      invariant syncResults == UserReportSoFar(st0, member, legisladores - remaining)
      decreases |remaining|
    {
      var k :| k in remaining;
      ghost var visited := legisladores - remaining;
      UsersSoFarStep(st0, member, visited, k);
      var entry := SyncLegislador(db, k, member, st0);
      syncResults := syncResults[k := entry];
      assert legisladores - (remaining - {k}) == visited + {k};
      remaining := remaining - {k};
    }
    assert legisladores - remaining == LegisladoresOf(st0);
    UsersSoFarDone(st0, member);
    reply := Done(SyncSummary(|legisladores|, syncResults));
  }

  /** One pass of the sync loop. The database differs from `st0` only in flags, so the save
      is admitted exactly when it would have been in `st0`. */
  method SyncLegislador(db: Db, k: Id, member: Membership, ghost st0: DbState) returns (entry: UserSyncEntry)
    requires k in st0.users && k in db.users && db.users[k] == st0.users[k]
    requires db.users.Keys == st0.users.Keys
    requires forall j :: j in st0.users ==> SameUserKeys(db.users[j], st0.users[j])
    modifies db
    ensures db.sesiones == old(db.sesiones) && db.leyes == old(db.leyes) && db.nextId == old(db.nextId)
    ensures entry == UserEntry(st0, k, member)
    ensures db.users == old(db.users)[k := SyncedUser(st0, k, member)]
  {
    var legislador := db.users[k];
    var isRegisteredOnBlockchain := VerificarLegislador(member(legislador.walletAddress));
    var needsUpdate := isRegisteredOnBlockchain != legislador.isRegisteredOnBlockchain;
    if needsUpdate {
      var u2 := legislador.(isRegisteredOnBlockchain := isRegisteredOnBlockchain);
      UserAdmissionByKeys(st0, db.State(), k, u2);
      if !CanSaveUser(db.State(), k, u2) {
        return SaveFailed;
      }
      db.users := db.users[k := u2];
    }
    entry := Checked(!isRegisteredOnBlockchain, isRegisteredOnBlockchain, needsUpdate);
  }

  /** The users once the sync loop has visited `visited`. */
  ghost function UsersSyncedSoFar(st0: DbState, member: Membership, visited: set<Id>): map<Id, User>
  {
    map k | k in st0.users :: if k in visited && k in LegisladoresOf(st0) then SyncedUser(st0, k, member) else st0.users[k]
  }

  /** `syncResults` once the sync loop has visited `visited`. */
  ghost function UserReportSoFar(st0: DbState, member: Membership, visited: set<Id>): map<Id, UserSyncEntry>
  {
    map k | k in visited && k in LegisladoresOf(st0) :: UserEntry(st0, k, member)
  }

  /** Visiting one more legislator: the users so far differ from `st0` only in flags, the
      visited one is still as loaded, and the visit adds its record and its entry. */
  lemma UsersSoFarStep(st0: DbState, member: Membership, visited: set<Id>, k: Id)
    requires k in LegisladoresOf(st0) && k !in visited
    ensures UsersSyncedSoFar(st0, member, visited).Keys == st0.users.Keys
    ensures forall j :: j in st0.users ==> SameUserKeys(UsersSyncedSoFar(st0, member, visited)[j], st0.users[j])
    ensures UsersSyncedSoFar(st0, member, visited)[k] == st0.users[k]
    ensures UsersSyncedSoFar(st0, member, visited + {k}) ==
      UsersSyncedSoFar(st0, member, visited)[k := SyncedUser(st0, k, member)]
    ensures UserReportSoFar(st0, member, visited + {k}) ==
      UserReportSoFar(st0, member, visited)[k := UserEntry(st0, k, member)]
  {
  }

  lemma UsersSoFarStart(st0: DbState, member: Membership)
    ensures UsersSyncedSoFar(st0, member, {}) == st0.users && UserReportSoFar(st0, member, {}) == map[]
  {
  }

  /** Once every legislator is visited, the loop has built the specification's answer. */
  lemma UsersSoFarDone(st0: DbState, member: Membership)
    ensures Syncronizar(st0, member) ==
      Step(Done(SyncSummary(|LegisladoresOf(st0)|, UserReportSoFar(st0, member, LegisladoresOf(st0)))),
           st0.(users := UsersSyncedSoFar(st0, member, LegisladoresOf(st0))))
  {
    assert UserReportSoFar(st0, member, LegisladoresOf(st0)) == SyncUserReport(st0, member);
    assert UsersSyncedSoFar(st0, member, LegisladoresOf(st0)) == SyncUsers(st0, member);
  }

  /** The sync visits every legislator and no one else and changes only flags. An entry that is
      not a save error reports the ledger's answer as `afterSync`, and `updated` exactly when
      it differed from the flag, which then takes the ledger's value; a save error leaves the
      record as it was. */
  lemma SyncronizarEffect(st: DbState, member: Membership, k: Id)
    requires k in st.users
    ensures var r := Syncronizar(st, member);
      var u := st.users[k];
      var ledger := member(u.walletAddress) == LedgerOk(true);
      && r.st.sesiones == st.sesiones && r.st.leyes == st.leyes && r.st.nextId == st.nextId
      && r.st.users.Keys == st.users.Keys
      && r.st.users[k] == Flagged(u, r.st.users[k].isRegisteredOnBlockchain)
      && r.reply.Done? && r.reply.value.totalLegisladores == |LegisladoresOf(st)|
      && (k in r.reply.value.results <==> u.role == Legislador)
      && (u.role != Legislador ==> r.st.users[k] == u)
      && (k in r.reply.value.results && r.reply.value.results[k].Checked? ==>
            && r.reply.value.results[k].afterSync == ledger
            && (r.reply.value.results[k].updated <==> ledger != u.isRegisteredOnBlockchain)
            && r.st.users[k].isRegisteredOnBlockchain == ledger)
      && (k in r.reply.value.results && r.reply.value.results[k].SaveFailed? ==>
            r.st.users[k] == u && ledger != u.isRegisteredOnBlockchain)
  {
  }

  /** `beforeSync` is the negation of the ledger's answer, not the flag before the sync: a
      legislator already registered on both sides is reported as going from false to true,
      with no update. */
  lemma SyncronizarBeforeSync(st: DbState, member: Membership, k: Id)
    requires k in LegisladoresOf(st)
    ensures var e := Syncronizar(st, member).reply.value.results[k];
      e.Checked? ==> e.beforeSync == !e.afterSync
    ensures st.users[k].isRegisteredOnBlockchain && member(st.users[k].walletAddress) == LedgerOk(true) ==>
      Syncronizar(st, member).reply.value.results[k] == Checked(false, true, false)
  {
  }

  /** In a valid database no save fails: every entry is a ledger answer and every
      legislator's flag ends equal to it. */
  lemma SyncronizarAdmitted(st: DbState, member: Membership)
    requires Valid(st)
    ensures var r := Syncronizar(st, member);
      && (forall k :: k in r.reply.value.results ==> r.reply.value.results[k].Checked?)
      && (forall k :: k in LegisladoresOf(st) ==>
            r.st.users[k].isRegisteredOnBlockchain == OnLedger(st.users[k], member))
  {
    forall k | k in st.users
      ensures CanSaveUser(st, k, Flagged(st.users[k], OnLedger(st.users[k], member)))
    {
      ResaveUserAdmitted(st, k, Flagged(st.users[k], OnLedger(st.users[k], member)));
    }
  }

  lemma SyncronizarPreserves(st: DbState, member: Membership)
    requires Valid(st) && Coherent(st)
    ensures Valid(Syncronizar(st, member).st) && Coherent(Syncronizar(st, member).st)
  {
    var users2 := SyncUsers(st, member);
    forall k | k in st.users
      ensures SameUserKeys(users2[k], st.users[k]) && UserModel.SchemaValid(users2[k])
    {
      assert CanSaveUser(st, k, st.users[k]);
    }
    ReplaceUsersValid(st, users2);
  }

  /** With the ledger unreachable every legislator ends as not registered. */
  lemma SyncronizarLedgerDown(st: DbState, member: Membership)
    requires Valid(st)
    requires forall w :: member(w).LedgerErr?
    ensures forall k :: k in LegisladoresOf(st) ==> !Syncronizar(st, member).st.users[k].isRegisteredOnBlockchain
  {
    SyncronizarAdmitted(st, member);
  }

  /** A second sync against the same ledger changes nothing and reports no update. */
  lemma SyncronizarIdempotent(st: DbState, member: Membership)
    ensures var r1 := Syncronizar(st, member);
      var r2 := Syncronizar(r1.st, member);
      && r2.st == r1.st
      && forall k :: k in r2.reply.value.results && r2.reply.value.results[k].Checked? ==>
           !r2.reply.value.results[k].updated
  {
    var r1 := Syncronizar(st, member);
    var st1 := r1.st;
    var r2 := Syncronizar(st1, member);
    assert LegisladoresOf(st1) == LegisladoresOf(st);
    forall k | k in st.users
      ensures SameUserKeys(st1.users[k], st.users[k])
    {
    }
    forall k | k in LegisladoresOf(st)
      ensures SyncedUser(st1, k, member) == st1.users[k]
      ensures UserEntry(st1, k, member).Checked? ==> !UserEntry(st1, k, member).updated
    {
      var u := st.users[k];
      var isReg := OnLedger(u, member);
      UserAdmissionByKeys(st, st1, k, Flagged(u, isReg));
      assert OnLedger(st1.users[k], member) == isReg;
    }
    assert SyncUsers(st1, member) == st1.users;
  }
}
