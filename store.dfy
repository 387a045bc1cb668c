/** The three MongoDB collections as in-memory maps, what a save admits, the invariant the
    database maintains (every stored document satisfies its schema and the unique indexes),
    and the lifecycle coherence between a session and its laws. */
module Store {
  import opened Base
  import opened LeyModel
  import opened SesionModel
  import opened UserModel

  datatype DbState = DbState(sesiones: map<Id, Sesion>, leyes: map<Id, Ley>, users: map<Id, User>, nextId: nat)

  /** Why a controller refused a request. */
  datatype Refusal =
    | NotFound        // 404: the document does not exist
    | WrongState      // 400: the lifecycle state forbids the operation
    | InvalidInput    // 400: the route's validators refused the body
    | MissingKey      // 400: no signing key for the ledger vote
    | HasVotes        // 400: a law with votes cannot be removed
    | NoLaws          // 400: a session without laws cannot be activated
    | NotOnLedger     // 400: the record was never registered on the ledger
    | AlreadyRegistered // 400: the legislator is already registered on the ledger
    | NotRegistered     // 400: the legislator is not registered on the ledger
    | WrongPassword     // 401: the current password does not match

  /** A controller's answer: success with a payload, a refusal before any change, a ledger
      failure, or a save the database rejected. */
  datatype Reply<+T> = Done(value: T) | Refused(why: Refusal) | LedgerFailed(message: string) | SaveRejected

  /** What one request does: the reply and the new state. */
  datatype Step<+T> = Step(reply: Reply<T>, st: DbState)

  // ---------------------------------------------------------------------------------
  // Save admission

  /** The session unique index (`blockchainId`, sparse): no other session has the same
      ledger id, when one is set. */
  predicate SessionKeyFree(st: DbState, id: Id, s: Sesion)
  {
    s.blockchainId.Some? ==>
      forall k :: k in st.sesiones && k != id ==> st.sesiones[k].blockchainId != s.blockchainId
  }

  /** The law unique index (`blockchainId`, `sesion`), read as unique when the ledger id is
      set: no other law of the same session has the same ledger id. */
  predicate LawKeyFree(st: DbState, id: Id, l: Ley)
  {
    l.blockchainId.Some? ==>
      forall k :: k in st.leyes && k != id && st.leyes[k].sesion == l.sesion ==>
        st.leyes[k].blockchainId != l.blockchainId
  }

  predicate CanSaveSesion(st: DbState, id: Id, s: Sesion)
  {
    SesionModel.SchemaValid(s) && SessionKeyFree(st, id, s)
  }

  predicate CanSaveLey(st: DbState, id: Id, l: Ley)
  {
    LeyModel.SchemaValid(l) && LawKeyFree(st, id, l)
  }

  /** The user unique indexes: e-mail and wallet always, and the sparse legislator number
      whenever the field is stored, an explicit `null` included. */
  predicate UserKeysFree(st: DbState, id: Id, u: User)
  {
    forall k :: k in st.users && k != id ==>
      && st.users[k].email != u.email
      && st.users[k].walletAddress != u.walletAddress
      && (!u.numeroLegislador.Unset? ==> st.users[k].numeroLegislador != u.numeroLegislador)
  }

  predicate CanSaveUser(st: DbState, id: Id, u: User)
  {
    UserModel.SchemaValid(u) && UserKeysFree(st, id, u)
  }

  // ---------------------------------------------------------------------------------
  // The database invariant

  predicate IdsBelow(st: DbState)
  {
    && (forall k :: k in st.sesiones ==> k < st.nextId)
    && (forall k :: k in st.leyes ==> k < st.nextId)
    && (forall k :: k in st.users ==> k < st.nextId)
  }

  /** Every stored document is one its save would admit. */
  predicate Valid(st: DbState)
  {
    && IdsBelow(st)
    && (forall k :: k in st.sesiones ==> CanSaveSesion(st, k, st.sesiones[k]))
    && (forall k :: k in st.leyes ==> CanSaveLey(st, k, st.leyes[k]))
    && (forall k :: k in st.users ==> CanSaveUser(st, k, st.users[k]))
  }

  function SetLey(st: DbState, id: Id, l: Ley): DbState
  {
    st.(leyes := st.leyes[id := l])
  }

  function SetSesion(st: DbState, id: Id, s: Sesion): DbState
  {
    st.(sesiones := st.sesiones[id := s])
  }

  function SetUser(st: DbState, id: Id, u: User): DbState
  {
    st.(users := st.users[id := u])
  }

  /** Reserving a fresh id keeps the invariant. */
  lemma FreshIdValid(st: DbState)
    requires Valid(st)
    ensures Valid(st.(nextId := st.nextId + 1))
  {
    var big := st.(nextId := st.nextId + 1);
    forall k | k in big.sesiones ensures CanSaveSesion(big, k, big.sesiones[k]) {
      assert CanSaveSesion(st, k, st.sesiones[k]);
    }
    forall k | k in big.leyes ensures CanSaveLey(big, k, big.leyes[k]) {
      assert CanSaveLey(st, k, st.leyes[k]);
    }
    forall k | k in big.users ensures CanSaveUser(big, k, big.users[k]) {
      assert CanSaveUser(st, k, st.users[k]);
    }
  }

  /** Storing a document its save admits, under an existing or fresh id, keeps the invariant. */
  lemma SetLeyValid(st: DbState, id: Id, l: Ley)
    requires Valid(st) && id < st.nextId && CanSaveLey(st, id, l)
    ensures Valid(SetLey(st, id, l))
  {
    var st2 := SetLey(st, id, l);
    forall k | k in st2.leyes
      ensures CanSaveLey(st2, k, st2.leyes[k])
    {
      if k != id {
        assert CanSaveLey(st, k, st.leyes[k]);
        assert LawKeyFree(st2, k, st2.leyes[k]) by {
          if st2.leyes[k].blockchainId.Some? {
            forall j | j in st2.leyes && j != k && st2.leyes[j].sesion == st2.leyes[k].sesion
              ensures st2.leyes[j].blockchainId != st2.leyes[k].blockchainId
            {
              if j == id {
                assert st.leyes[k].blockchainId != l.blockchainId;
              }
            }
          }
        }
      }
    }
  }

  lemma SetSesionValid(st: DbState, id: Id, s: Sesion)
    requires Valid(st) && id < st.nextId && CanSaveSesion(st, id, s)
    ensures Valid(SetSesion(st, id, s))
  {
    var st2 := SetSesion(st, id, s);
    forall k | k in st2.sesiones
      ensures CanSaveSesion(st2, k, st2.sesiones[k])
    {
      if k != id {
        assert CanSaveSesion(st, k, st.sesiones[k]);
        assert SessionKeyFree(st2, k, st2.sesiones[k]) by {
          if st2.sesiones[k].blockchainId.Some? {
            forall j | j in st2.sesiones && j != k
              ensures st2.sesiones[j].blockchainId != st2.sesiones[k].blockchainId
            {
              if j == id {
                assert st.sesiones[k].blockchainId != s.blockchainId;
              }
            }
          }
        }
      }
    }
  }

  lemma SetUserValid(st: DbState, id: Id, u: User)
    requires Valid(st) && id < st.nextId && CanSaveUser(st, id, u)
    ensures Valid(SetUser(st, id, u))
  {
    var st2 := SetUser(st, id, u);
    forall k | k in st2.users
      ensures CanSaveUser(st2, k, st2.users[k])
    {
      if k != id {
        assert CanSaveUser(st, k, st.users[k]);
      }
    }
  }

  /** A law whose ledger id and session are unchanged and whose fields still pass the schema is
      admitted again: its unique key was free before. */
  lemma ResaveLeyAdmitted(st: DbState, id: Id, l: Ley)
    requires Valid(st) && id in st.leyes && LeyModel.SchemaValid(l)
    requires l.blockchainId == st.leyes[id].blockchainId && l.sesion == st.leyes[id].sesion
    ensures CanSaveLey(st, id, l)
  {
    assert CanSaveLey(st, id, st.leyes[id]);
  }

  lemma ResaveSesionAdmitted(st: DbState, id: Id, s: Sesion)
    requires Valid(st) && id in st.sesiones && SesionModel.SchemaValid(s)
    requires s.blockchainId == st.sesiones[id].blockchainId
    ensures CanSaveSesion(st, id, s)
  {
    assert CanSaveSesion(st, id, st.sesiones[id]);
  }

  lemma ResaveUserAdmitted(st: DbState, id: Id, u: User)
    requires Valid(st) && id in st.users && UserModel.SchemaValid(u)
    requires u.email == st.users[id].email && u.walletAddress == st.users[id].walletAddress
    requires u.numeroLegislador == st.users[id].numeroLegislador
    ensures CanSaveUser(st, id, u)
  {
    assert CanSaveUser(st, id, st.users[id]);
  }

  /** A law off the ledger never clashes on the law index, so a fresh draft law is admitted
      whenever its fields pass the schema. */
  lemma DraftLawAdmitted(st: DbState, id: Id, l: Ley)
    requires l.blockchainId.None? && LeyModel.SchemaValid(l)
    ensures CanSaveLey(st, id, l)
  {
  }

  /** Removing documents keeps the invariant. */
  lemma RemoveValid(st: DbState, st2: DbState)
    requires Valid(st) && st2.nextId == st.nextId
    requires st2.sesiones.Keys <= st.sesiones.Keys && st2.leyes.Keys <= st.leyes.Keys && st2.users.Keys <= st.users.Keys
    requires forall k :: k in st2.sesiones ==> st2.sesiones[k] == st.sesiones[k]
    requires forall k :: k in st2.leyes ==> st2.leyes[k] == st.leyes[k]
    requires forall k :: k in st2.users ==> st2.users[k] == st.users[k]
    ensures Valid(st2)
  {
    forall k | k in st2.sesiones
      ensures CanSaveSesion(st2, k, st2.sesiones[k])
    {
      assert CanSaveSesion(st, k, st.sesiones[k]);
    }
    forall k | k in st2.leyes
      ensures CanSaveLey(st2, k, st2.leyes[k])
    {
      assert CanSaveLey(st, k, st.leyes[k]);
    }
    forall k | k in st2.users
      ensures CanSaveUser(st2, k, st2.users[k])
    {
      assert CanSaveUser(st, k, st.users[k]);
    }
  }

  /** Replacing the laws by ones with the same ids, ledger ids and sessions, each passing the
      schema, keeps the invariant. */
  lemma ReplaceLawsValid(st: DbState, leyes2: map<Id, Ley>)
    requires Valid(st) && leyes2.Keys == st.leyes.Keys
    requires forall k :: k in st.leyes ==>
      && leyes2[k].blockchainId == st.leyes[k].blockchainId && leyes2[k].sesion == st.leyes[k].sesion
      && LeyModel.SchemaValid(leyes2[k])
    ensures Valid(st.(leyes := leyes2))
  {
    var st2 := st.(leyes := leyes2);
    forall k | k in st2.sesiones
      ensures CanSaveSesion(st2, k, st2.sesiones[k])
    {
      assert CanSaveSesion(st, k, st.sesiones[k]);
    }
    forall k | k in st2.leyes
      ensures LawKeyFree(st2, k, st2.leyes[k])
    {
      assert LawKeyFree(st, k, st.leyes[k]);
    }
    forall k | k in st2.users
      ensures CanSaveUser(st2, k, st2.users[k])
    {
      assert CanSaveUser(st, k, st.users[k]);
    }
  }

  /** The law index as MongoDB builds it: a sparse compound index still indexes every law,
      because each has a `sesion`, and an absent `blockchainId` is indexed as null. */
  predicate LawKeyFreeAsWritten(st: DbState, id: Id, l: Ley)
  {
    forall k :: k in st.leyes && k != id && st.leyes[k].sesion == l.sesion ==>
      st.leyes[k].blockchainId != l.blockchainId
  }

  /** Under that index a session cannot hold two laws that are not on the ledger: adding a
      second draft law to a session that has one is rejected as a duplicate key. */
  lemma SecondDraftLawRejectedAsWritten(l: Ley, nueva: Ley)
    requires l.blockchainId.None? && nueva.blockchainId.None? && l.sesion == nueva.sesion
    ensures !LawKeyFreeAsWritten(DbState(map[], map[0 := l], map[], 1), 1, nueva)
    ensures LawKeyFree(DbState(map[], map[0 := l], map[], 1), 1, nueva)
  {
    var st := DbState(map[], map[0 := l], map[], 1);
    assert 0 in st.leyes && st.leyes[0].sesion == nueva.sesion && st.leyes[0].blockchainId == nueva.blockchainId;
  }

  /** Which reading of the law index a new law is created under: `AsDeclared` is the index
      MongoDB builds from the schema, `OnLedgerOnly` the evidently intended "unique once on the
      ledger". The store invariant `Valid` is stated with the second, which the first implies. */
  datatype LawIndex = AsDeclared | OnLedgerOnly

  /** A new law can be saved under reading `ix`. */
  predicate CanCreateLey(ix: LawIndex, st: DbState, id: Id, l: Ley)
  {
    && LeyModel.SchemaValid(l)
    && (if ix == AsDeclared then LawKeyFreeAsWritten(st, id, l) else LawKeyFree(st, id, l))
  }

  /** A law admitted under either reading is admitted under the store invariant's. */
  lemma CreatedLeyAdmitted(ix: LawIndex, st: DbState, id: Id, l: Ley)
    requires CanCreateLey(ix, st, id, l)
    ensures CanSaveLey(st, id, l)
  {
  }

  // ---------------------------------------------------------------------------------
  // Lifecycle coherence

  /** The law states a session state allows. */
  predicate StateFits(s: EstadoSesion, l: EstadoLey)
  {
    match s
    case Draft => l == EstadoLey.Draft
    case Active => l == EstadoLey.Draft || l == Voting
    case Finished => l == Approved || l == Rejected
    case Cancelled => l == EstadoLey.Cancelled
  }

  /** Every law belongs to a stored session whose state allows the law's state; every listed
      law id is below the id counter and, when stored, belongs to the listing session. */
  predicate Coherent(st: DbState)
  {
    && (forall k :: k in st.leyes ==>
          st.leyes[k].sesion in st.sesiones
          && StateFits(st.sesiones[st.leyes[k].sesion].estado, st.leyes[k].estado))
    && (forall s, i :: s in st.sesiones && 0 <= i < |st.sesiones[s].leyes| ==>
          st.sesiones[s].leyes[i] < st.nextId
          && (st.sesiones[s].leyes[i] in st.leyes ==> st.leyes[st.sesiones[s].leyes[i]].sesion == s))
  }

  /** Storing a session with its state and law list unchanged keeps the coherence. */
  lemma SetSesionCoherent(st: DbState, id: Id, s2: Sesion)
    requires Coherent(st) && id in st.sesiones
    requires s2.estado == st.sesiones[id].estado && s2.leyes == st.sesiones[id].leyes
    ensures Coherent(SetSesion(st, id, s2))
  {
    var st2 := SetSesion(st, id, s2);
    forall s, i | s in st2.sesiones && 0 <= i < |st2.sesiones[s].leyes|
      ensures st2.sesiones[s].leyes[i] < st2.nextId
              && (st2.sesiones[s].leyes[i] in st2.leyes ==> st2.leyes[st2.sesiones[s].leyes[i]].sesion == s)
    {
      assert st2.sesiones[s].leyes == st.sesiones[s].leyes;
    }
  }

  /** Storing a law over one of the same session, in a state that session allows, keeps the
      coherence. */
  lemma SetLeyCoherent(st: DbState, lid: Id, l2: Ley)
    requires Coherent(st) && lid in st.leyes && l2.sesion == st.leyes[lid].sesion
    requires StateFits(st.sesiones[l2.sesion].estado, l2.estado)
    ensures Coherent(SetLey(st, lid, l2))
  {
    var st2 := SetLey(st, lid, l2);
    forall s, i | s in st2.sesiones && 0 <= i < |st2.sesiones[s].leyes|
      ensures st2.sesiones[s].leyes[i] < st2.nextId
              && (st2.sesiones[s].leyes[i] in st2.leyes ==> st2.leyes[st2.sesiones[s].leyes[i]].sesion == s)
    {
    }
  }

  /** A lifecycle transition: session `id` is stored as `s2` and the laws replaced by
      `leyes2`, with the same ids, ledger ids and sessions. When every saved document passes its
      schema, the invariant is kept. */
  lemma TransitionValid(st: DbState, id: Id, s2: Sesion, leyes2: map<Id, Ley>)
    requires Valid(st) && id in st.sesiones && CanSaveSesion(st, id, s2)
    requires leyes2.Keys == st.leyes.Keys
    requires forall k :: k in st.leyes ==>
      && leyes2[k].blockchainId == st.leyes[k].blockchainId && leyes2[k].sesion == st.leyes[k].sesion
      && LeyModel.SchemaValid(leyes2[k])
    ensures Valid(st.(sesiones := st.sesiones[id := s2], leyes := leyes2))
  {
    SetSesionValid(st, id, s2);
    ReplaceLawsValid(SetSesion(st, id, s2), leyes2);
  }

  /** When a transition keeps the session's law list, moves only that session's laws and
      leaves each in a state the session's new state allows, the coherence is kept. */
  lemma TransitionCoherent(st: DbState, id: Id, s2: Sesion, leyes2: map<Id, Ley>)
    requires Coherent(st) && id in st.sesiones && s2.leyes == st.sesiones[id].leyes
    requires leyes2.Keys == st.leyes.Keys
    requires forall k :: k in st.leyes ==>
      && leyes2[k].sesion == st.leyes[k].sesion
      && (st.leyes[k].sesion == id ==> StateFits(s2.estado, leyes2[k].estado))
      && (st.leyes[k].sesion != id ==> leyes2[k].estado == st.leyes[k].estado)
    ensures Coherent(st.(sesiones := st.sesiones[id := s2], leyes := leyes2))
  {
    var st2 := st.(sesiones := st.sesiones[id := s2], leyes := leyes2);
    forall k | k in st2.leyes
      ensures st2.leyes[k].sesion in st2.sesiones
              && StateFits(st2.sesiones[st2.leyes[k].sesion].estado, st2.leyes[k].estado)
    {
      assert StateFits(st.sesiones[st.leyes[k].sesion].estado, st.leyes[k].estado);
    }
    forall s, i | s in st2.sesiones && 0 <= i < |st2.sesiones[s].leyes|
      ensures st2.sesiones[s].leyes[i] < st2.nextId
              && (st2.sesiones[s].leyes[i] in st2.leyes ==> st2.leyes[st2.sesiones[s].leyes[i]].sesion == s)
    {
      assert st2.sesiones[s].leyes == st.sesiones[s].leyes;
    }
  }

  /** Two user records with the same unique keys. */
  predicate SameUserKeys(a: User, b: User)
  {
    a.email == b.email && a.walletAddress == b.walletAddress && a.numeroLegislador == b.numeroLegislador
  }

  /** Whether a user save is admitted depends only on the other users' unique keys. */
  lemma UserAdmissionByKeys(st: DbState, st2: DbState, id: Id, u: User)
    requires st2.users.Keys == st.users.Keys
    requires forall k :: k in st.users ==> SameUserKeys(st2.users[k], st.users[k])
    ensures CanSaveUser(st2, id, u) <==> CanSaveUser(st, id, u)
  {
  }

  /** Replacing the users by ones with the same ids and unique keys, each passing the schema,
      keeps the invariant. */
  lemma ReplaceUsersValid(st: DbState, users2: map<Id, User>)
    requires Valid(st) && users2.Keys == st.users.Keys
    requires forall k :: k in st.users ==> SameUserKeys(users2[k], st.users[k]) && UserModel.SchemaValid(users2[k])
    ensures Valid(st.(users := users2))
  {
    var st2 := st.(users := users2);
    forall k | k in st2.sesiones
      ensures CanSaveSesion(st2, k, st2.sesiones[k])
    {
      assert CanSaveSesion(st, k, st.sesiones[k]);
    }
    forall k | k in st2.leyes
      ensures CanSaveLey(st2, k, st2.leyes[k])
    {
      assert CanSaveLey(st, k, st.leyes[k]);
    }
    forall k | k in st2.users
      ensures CanSaveUser(st2, k, st2.users[k])
    {
      assert CanSaveUser(st, k, st.users[k]);
      ReplacedUserKeysFree(st, users2, k);
    }
  }

  /** One replaced user keeps its unique keys free among the replaced users. */
  lemma ReplacedUserKeysFree(st: DbState, users2: map<Id, User>, id: Id)
    requires users2.Keys == st.users.Keys && id in st.users
    requires forall k :: k in st.users ==> SameUserKeys(users2[k], st.users[k])
    requires UserKeysFree(st, id, st.users[id])
    ensures UserKeysFree(st.(users := users2), id, users2[id])
  {
  }

  /** The laws whose `sesion` is `s` (the lookup `Ley.find({ sesion })`). */
  function LawsOf(st: DbState, s: Id): (r: set<Id>)
    ensures forall k :: k in r <==> k in st.leyes && st.leyes[k].sesion == s
  {
    set k | k in st.leyes && st.leyes[k].sesion == s
  }

  /** The database itself: three collections and the source of fresh ObjectIds. */
  class Db {
    var sesiones: map<Id, Sesion>
    var leyes: map<Id, Ley>
    var users: map<Id, User>
    var nextId: nat

    function State(): DbState
      reads this
    {
      DbState(sesiones, leyes, users, nextId)
    }

    constructor Empty()
      ensures State() == DbState(map[], map[], map[], 0)
    {
      sesiones := map[];
      leyes := map[];
      users := map[];
      nextId := 0;
    }
  }

  /** The empty database satisfies both invariants. */
  lemma EmptyValid()
    ensures Valid(DbState(map[], map[], map[], 0)) && Coherent(DbState(map[], map[], map[], 0))
  {
  }
}
