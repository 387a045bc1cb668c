/** The vote controller: casting a vote (`registrarVoto`), the caller's own votes
    (`obtenerMiVoto`, `obtenerMisVotos`) and a legislator's statistics loop. */
module VotacionController {
  import opened Base
  import opened BlockchainService
  import opened LeyModel
  import opened SesionModel
  import opened UserModel
  import opened VoteTally
  import opened Store

  /** The payload of a successful vote: whether an earlier record was overwritten, and the
      counters after the cast. */
  datatype VotoRegistrado = VotoRegistrado(updated: bool, resultados: Conteo)

  /** The arguments of the ledger's `registrarVoto`: the session's and the law's ledger ids,
      the vote's contract number and the signing key. */
  datatype LedgerVote = LedgerVote(sesion: Option<int>, ley: Option<int>, code: int, key: string)

  /** What one vote request does: the reply, the ledger call it made (if any), the new state. */
  datatype VoteStep = VoteStep(reply: Reply<VotoRegistrado>, submitted: Option<LedgerVote>, st: DbState)

  /** The route validator on `voto`: one of the four names a legislator may cast. */
  function CastableVote(s: string): (r: Option<VoteValue>)
    ensures r.Some? <==> s in {"PRESENTE", "A_FAVOR", "EN_CONTRA", "ABSTENCION"}
    ensures r.Some? ==> Name(r.value) == s && r.value != AUSENTE
  {
    match ParseVote(s)
    case Some(v) => if v == AUSENTE then None else Some(v)
    case None => None
  }

  /** `req.body.privateKey || process.env.LEGISLADOR_PRIVATE_KEY`: the first non-empty key. */
  function ResolveKey(bodyKey: Option<string>, envKey: Option<string>): (r: Option<string>)
    ensures r.Some? ==> r.value != ""
    ensures r.None? <==> (bodyKey.None? || bodyKey.value == "") && (envKey.None? || envKey.value == "")
    ensures bodyKey.Some? && bodyKey.value != "" ==> r == bodyKey
    ensures (bodyKey.None? || bodyKey.value == "") ==> r == (if envKey.Some? && envKey.value != "" then envKey else None)
  {
    if bodyKey.Some? && bodyKey.value != "" then bodyKey
    else if envKey.Some? && envKey.value != "" then envKey
    else None
  }

  /** The law document after `legislador` casts `voto` at `now` with the ledger's hash. */
  function CastLey(l: Ley, legislador: Id, voto: VoteValue, now: Time, tx: string): Ley
  {
    l.(votos := CastVotos(l.votos, legislador, voto, now, Some(tx)),
       conteo := CastConteo(l.conteo, l.votos, legislador, voto),
       fechaVotacion := Some(now))
  }

  /** One vote request by `legislador`: validation, session and law guards, the signing key,
      the ledger call (`ledger` is its outcome), the cast and the save. */
  function Votar(st: DbState, legislador: Id, sesionId: Id, leyId: Id, voto: string,
                 bodyKey: Option<string>, envKey: Option<string>, ledger: LedgerResult<Receipt>,
                 now: Time): VoteStep
  {
    var v := CastableVote(voto);
    if v.None? then VoteStep(Refused(InvalidInput), None, st)
    else if sesionId !in st.sesiones then VoteStep(Refused(NotFound), None, st)
    else if st.sesiones[sesionId].estado != Active then VoteStep(Refused(WrongState), None, st)
    else if leyId !in st.leyes || st.leyes[leyId].sesion != sesionId then VoteStep(Refused(NotFound), None, st)
    else if st.leyes[leyId].estado != Voting then VoteStep(Refused(WrongState), None, st)
    else if ResolveKey(bodyKey, envKey).None? then VoteStep(Refused(MissingKey), None, st)
    else
      var call := Some(LedgerVote(st.sesiones[sesionId].blockchainId, st.leyes[leyId].blockchainId,
                                  MapearEstadoVoto(voto), ResolveKey(bodyKey, envKey).value));
      match Wrap(ledger)
      case LedgerErr(m) => VoteStep(LedgerFailed(m), call, st)
      case LedgerOk(rc) =>
        var l := st.leyes[leyId];
        var l2 := CastLey(l, legislador, v.value, now, rc.transactionHash);
        if CanSaveLey(st, leyId, l2) then
          VoteStep(Done(VotoRegistrado(FindVoto(l.votos, legislador).Some?, l2.conteo)), call, SetLey(st, leyId, l2))
        else VoteStep(SaveRejected, call, st)
  }

  /** `registrarVoto`. */
  method RegistrarVoto(db: Db, legislador: Id, sesionId: Id, leyId: Id, voto: string,
                       bodyKey: Option<string>, envKey: Option<string>, ledger: LedgerResult<Receipt>,
                       now: Time) returns (reply: Reply<VotoRegistrado>, submitted: Option<LedgerVote>)
    modifies db
    ensures VoteStep(reply, submitted, db.State())
            == Votar(old(db.State()), legislador, sesionId, leyId, voto, bodyKey, envKey, ledger, now)
  {
    submitted := None;
    var v := CastableVote(voto);
    if v.None? {
      reply := Refused(InvalidInput);
      return;
    }
    if sesionId !in db.sesiones {
      reply := Refused(NotFound);
      return;
    }
    if db.sesiones[sesionId].estado != Active {
      reply := Refused(WrongState);
      return;
    }
    if leyId !in db.leyes || db.leyes[leyId].sesion != sesionId {
      reply := Refused(NotFound);
      return;
    }
    var ley := db.leyes[leyId];
    if ley.estado != Voting {
      reply := Refused(WrongState);
      return;
    }
    var key := ResolveKey(bodyKey, envKey);
    if key.None? {
      reply := Refused(MissingKey);
      return;
    }
    var estadoVotoNumerico := MapearEstadoVoto(voto);
    submitted := Some(LedgerVote(db.sesiones[sesionId].blockchainId, ley.blockchainId, estadoVotoNumerico, key.value));
    var result := Wrap(ledger);
    if result.LedgerErr? {
      reply := LedgerFailed(result.cause);
      return;
    }
    var tally := new Tally.Load(ley);
    var updated := tally.Cast(legislador, v.value, now, Some(result.value.transactionHash));
    var ley2 := ley.(votos := tally.votos, conteo := tally.Conteo(), fechaVotacion := Some(now));
    assert ley2 == CastLey(ley, legislador, v.value, now, result.value.transactionHash);
    if CanSaveLey(db.State(), leyId, ley2) {
      db.leyes := db.leyes[leyId := ley2];
      reply := Done(VotoRegistrado(updated, ley2.conteo));
    } else {
      reply := SaveRejected;
    }
  }

  // ---------------------------------------------------------------------------------
  // Properties of a vote request

  /** A vote is accepted only on a law of an active session that the law belongs to and that
      is open for voting; every refusal leaves the database as it was. */
  lemma VoteRequiresOpenLaw(st: DbState, legislador: Id, sesionId: Id, leyId: Id, voto: string,
                            bodyKey: Option<string>, envKey: Option<string>, ledger: LedgerResult<Receipt>, now: Time)
    ensures var r := Votar(st, legislador, sesionId, leyId, voto, bodyKey, envKey, ledger, now);
      && (r.reply.Done? ==>
            && sesionId in st.sesiones && st.sesiones[sesionId].estado == Active
            && leyId in st.leyes && st.leyes[leyId].sesion == sesionId && st.leyes[leyId].estado == Voting
            && CastableVote(voto).Some? && ledger.LedgerOk?)
      && (!r.reply.Done? ==> r.st == st)
  {
  }

  /** Without a signing key the request is refused before the ledger is called; a ledger
      failure is reported with its prefixed cause and changes nothing. */
  lemma VoteLedgerFirst(st: DbState, legislador: Id, sesionId: Id, leyId: Id, voto: string,
                        bodyKey: Option<string>, envKey: Option<string>, ledger: LedgerResult<Receipt>, now: Time)
    ensures var r := Votar(st, legislador, sesionId, leyId, voto, bodyKey, envKey, ledger, now);
      && (ResolveKey(bodyKey, envKey).None? ==> r.submitted.None? && r.st == st)
      && (r.submitted.Some? && ledger.LedgerErr? ==>
            r.reply == LedgerFailed(BLOCKCHAIN_ERROR_PREFIX + ledger.cause) && r.st == st)
      && (r.reply.Done? ==> r.submitted.Some?)
  {
  }

  /** The ledger receives the session's and the law's ledger ids, the key that `ResolveKey`
      picked and the contract number of the cast name, which decodes back to that name: an
      accepted vote stores as the caller's vote exactly the value whose number the ledger got. */
  lemma VoteSubmission(st: DbState, legislador: Id, sesionId: Id, leyId: Id, voto: string,
                       bodyKey: Option<string>, envKey: Option<string>, ledger: LedgerResult<Receipt>, now: Time)
    ensures var r := Votar(st, legislador, sesionId, leyId, voto, bodyKey, envKey, ledger, now);
      r.submitted.Some? ==>
        && sesionId in st.sesiones && leyId in st.leyes && ResolveKey(bodyKey, envKey).Some?
        && r.submitted.value == LedgerVote(st.sesiones[sesionId].blockchainId, st.leyes[leyId].blockchainId,
                                           MapearEstadoVoto(voto), ResolveKey(bodyKey, envKey).value)
        && 1 <= r.submitted.value.code <= 4
        && MapearEstadoVotoInverso(r.submitted.value.code) == voto
        && (r.reply.Done? ==>
              Name(ObtenerVotoLegislador(r.st.leyes[leyId], legislador)) == MapearEstadoVotoInverso(r.submitted.value.code))
  {
    var r := Votar(st, legislador, sesionId, leyId, voto, bodyKey, envKey, ledger, now);
    if r.submitted.Some? {
      var v := CastableVote(voto).value;
      DecodeEncode(v);
      if r.reply.Done? {
        var l := st.leyes[leyId];
        CastRecordsSemantics(l.votos, legislador, v, now, Some(Wrap(ledger).value.transactionHash));
      }
    }
  }

  /** An accepted vote changes only that law, and only its records, counters and voting date;
      the reply says "updated" exactly when the caller already had a record. */
  lemma VoteChangesOnlyTheTally(st: DbState, legislador: Id, sesionId: Id, leyId: Id, voto: string,
                                bodyKey: Option<string>, envKey: Option<string>, ledger: LedgerResult<Receipt>, now: Time)
    requires Votar(st, legislador, sesionId, leyId, voto, bodyKey, envKey, ledger, now).reply.Done?
    ensures var r := Votar(st, legislador, sesionId, leyId, voto, bodyKey, envKey, ledger, now);
      && r.st.sesiones == st.sesiones && r.st.users == st.users && r.st.nextId == st.nextId
      && r.st.leyes.Keys == st.leyes.Keys
      && (forall k :: k in st.leyes && k != leyId ==> r.st.leyes[k] == st.leyes[k])
      && r.st.leyes[leyId] == st.leyes[leyId].(votos := r.st.leyes[leyId].votos,
                                                conteo := r.st.leyes[leyId].conteo,
                                                fechaVotacion := Some(now))
      && (r.reply.value.updated <==> FindVoto(st.leyes[leyId].votos, legislador).Some?)
      && r.reply.value.resultados == r.st.leyes[leyId].conteo
  {
  }

  /** An accepted vote leaves the caller with exactly one record carrying the cast value, when
      the law had at most one record per legislator, and keeps the counters in agreement with
      the records when they agreed before. */
  lemma VoteKeepsTallyInvariant(st: DbState, legislador: Id, sesionId: Id, leyId: Id, voto: string,
                                bodyKey: Option<string>, envKey: Option<string>, ledger: LedgerResult<Receipt>, now: Time)
    requires Votar(st, legislador, sesionId, leyId, voto, bodyKey, envKey, ledger, now).reply.Done?
    requires UniqueVoters(st.leyes[leyId].votos) && TallyConsistent(st.leyes[leyId])
    ensures var l2 := Votar(st, legislador, sesionId, leyId, voto, bodyKey, envKey, ledger, now).st.leyes[leyId];
      && UniqueVoters(l2.votos) && TallyConsistent(l2)
      && RecordsOf(l2.votos, legislador) == 1
      && ObtenerVotoLegislador(l2, legislador) == CastableVote(voto).value
  {
    var l := st.leyes[leyId];
    var v := CastableVote(voto).value;
    var tx := Wrap(ledger).value.transactionHash;
    CastKeepsOneRecordPerVoter(l.votos, legislador, v, now, Some(tx), legislador);
    CastPreservesAgreement(l, legislador, v, now, Some(tx));
    CastRecordsSemantics(l.votos, legislador, v, now, Some(tx));
  }

  /** A vote request keeps the database invariant and the lifecycle coherence. */
  lemma VotePreservesInvariants(st: DbState, legislador: Id, sesionId: Id, leyId: Id, voto: string,
                                bodyKey: Option<string>, envKey: Option<string>, ledger: LedgerResult<Receipt>, now: Time)
    requires Valid(st) && Coherent(st)
    ensures Valid(Votar(st, legislador, sesionId, leyId, voto, bodyKey, envKey, ledger, now).st)
    ensures Coherent(Votar(st, legislador, sesionId, leyId, voto, bodyKey, envKey, ledger, now).st)
  {
    var r := Votar(st, legislador, sesionId, leyId, voto, bodyKey, envKey, ledger, now);
    if r.reply.Done? {
      var l2 := r.st.leyes[leyId];
      SetLeyValid(st, leyId, l2);
    }
  }

  /** Once the session sync has overwritten a counter with a lower ledger value, a re-vote can
      drive that counter below zero: the save is then rejected although the ledger has already
      accepted the vote. */
  lemma ResyncedTallyCanRejectRevote(st: DbState, sesionId: Id, leyId: Id, legislador: Id, now: Time)
    requires sesionId in st.sesiones && st.sesiones[sesionId].estado == Active
    requires leyId in st.leyes && st.leyes[leyId].sesion == sesionId && st.leyes[leyId].estado == Voting
    requires st.leyes[leyId].votos == [VoteRecord(legislador, A_FAVOR, now, None)]
    requires st.leyes[leyId].conteo.votosAFavor == 0
    ensures var r := Votar(st, legislador, sesionId, leyId, "EN_CONTRA", Some("k"), None,
                           LedgerOk(Receipt(LEDGER_TX)), now);
      r.submitted.Some? && r.reply == SaveRejected && r.st == st
  {
    var l := st.leyes[leyId];
    var l2 := CastLey(l, legislador, EN_CONTRA, now, LEDGER_TX);
    assert FindVoto(l.votos, legislador) == Some(0);
    assert l2.conteo.votosAFavor == -1;
    assert !CanSaveLey(st, leyId, l2);
  }

  const LEDGER_TX: string := "0x" + seq(64, _ => 'a')

  // ---------------------------------------------------------------------------------
  // The caller's own votes

  /** The caller's view of one law: their record, if any, and whether the law is open. */
  datatype MiVoto = MiVoto(ley: Id, miVoto: Option<VoteRecord>, puedeVotar: bool)

  function MiVotoEn(k: Id, l: Ley, legislador: Id): (r: MiVoto)
    ensures r.puedeVotar <==> l.estado == Voting
    ensures r.miVoto.None? <==> forall j :: 0 <= j < |l.votos| ==> l.votos[j].legislador != legislador
    ensures r.miVoto.Some? ==> r.miVoto.value in l.votos && r.miVoto.value.legislador == legislador
                                && r.miVoto.value.voto == ObtenerVotoLegislador(l, legislador)
  {
    match FindVoto(l.votos, legislador)
    case None => MiVoto(k, None, l.estado == Voting)
    case Some(i) => MiVoto(k, Some(l.votos[i]), l.estado == Voting)
  }

  /** `obtenerMiVoto`: the law must exist in the named session (the session itself is not
      looked up). */
  function ObtenerMiVoto(st: DbState, legislador: Id, sesionId: Id, leyId: Id): (r: Reply<MiVoto>)
    ensures r.Done? <==> leyId in st.leyes && st.leyes[leyId].sesion == sesionId
    ensures !r.Done? ==> r == Refused(NotFound)
    ensures r.Done? ==> r.value == MiVotoEn(leyId, st.leyes[leyId], legislador)
  {
    if leyId in st.leyes && st.leyes[leyId].sesion == sesionId then Done(MiVotoEn(leyId, st.leyes[leyId], legislador))
    else Refused(NotFound)
  }

  /** `obtenerMisVotos`: the session must exist; one entry per law of the session. */
  function ObtenerMisVotos(st: DbState, legislador: Id, sesionId: Id): (r: Reply<map<Id, MiVoto>>)
    ensures r.Done? <==> sesionId in st.sesiones
    ensures r.Done? ==> r.value.Keys == LawsOf(st, sesionId)
    ensures r.Done? ==> forall k :: k in r.value ==> r.value[k] == MiVotoEn(k, st.leyes[k], legislador)
  {
    if sesionId in st.sesiones then
      Done(map k | k in LawsOf(st, sesionId) :: MiVotoEn(k, st.leyes[k], legislador))
    else Refused(NotFound)
  }

  /** On a law of the session, the per-session listing shows what the single lookup shows. */
  lemma MisVotosAgreesWithMiVoto(st: DbState, legislador: Id, sesionId: Id, leyId: Id)
    requires sesionId in st.sesiones && leyId in st.leyes && st.leyes[leyId].sesion == sesionId
    ensures ObtenerMisVotos(st, legislador, sesionId).value[leyId]
            == ObtenerMiVoto(st, legislador, sesionId, leyId).value
  {
  }

  /** Right after an accepted vote, the caller's lookup shows the cast value, with the law
      still open. */
  lemma MiVotoAfterVote(st: DbState, legislador: Id, sesionId: Id, leyId: Id, voto: string,
                        bodyKey: Option<string>, envKey: Option<string>, ledger: LedgerResult<Receipt>, now: Time)
    requires Votar(st, legislador, sesionId, leyId, voto, bodyKey, envKey, ledger, now).reply.Done?
    ensures var st2 := Votar(st, legislador, sesionId, leyId, voto, bodyKey, envKey, ledger, now).st;
      var m := ObtenerMiVoto(st2, legislador, sesionId, leyId);
      && m.Done? && m.value.puedeVotar
      && m.value.miVoto.Some? && m.value.miVoto.value.voto == CastableVote(voto).value
      && m.value.miVoto.value.fecha == now
  {
    var l := st.leyes[leyId];
    var v := CastableVote(voto).value;
    var tx := Wrap(ledger).value.transactionHash;
    CastRecordsSemantics(l.votos, legislador, v, now, Some(tx));
  }

  // ---------------------------------------------------------------------------------
  // A legislator's statistics

  datatype Estadisticas = Estadisticas(totalVotos: nat, votosAFavor: nat, votosEnContra: nat,
                                       abstenciones: nat, presentes: nat)

  /** One history line: the law, the legislator's value and date, and the law's outcome. */
  datatype Historial = Historial(titulo: string, voto: VoteValue, fecha: Time, aprobada: bool)

  /** Number of laws among `leyes` holding a record of `id`. */
  function VotedLaws(leyes: seq<Ley>, id: Id): nat
  {
    if |leyes| == 0 then 0
    else VotedLaws(leyes[..|leyes| - 1], id) + (if FindVoto(leyes[|leyes| - 1].votos, id).Some? then 1 else 0)
  }

  /** The value of `id`'s first record on `l`, if any. */
  function VoteOn(l: Ley, id: Id): Option<VoteValue>
  {
    match FindVoto(l.votos, id)
    case None => None
    case Some(i) => Some(l.votos[i].voto)
  }

  /** Number of laws among `leyes` where `id`'s first record carries `v`. */
  function VotedWith(leyes: seq<Ley>, id: Id, v: VoteValue): nat
  {
    if |leyes| == 0 then 0
    else VotedWith(leyes[..|leyes| - 1], id, v) + (if VoteOn(leyes[|leyes| - 1], id) == Some(v) then 1 else 0)
  }

  /** The history lines of `id`, in the order of `leyes`. */
  function HistorialOf(leyes: seq<Ley>, id: Id): seq<Historial>
  {
    if |leyes| == 0 then []
    else
      var l := leyes[|leyes| - 1];
      HistorialOf(leyes[..|leyes| - 1], id)
        + match FindVoto(l.votos, id)
          case None => []
          case Some(i) => [Historial(l.titulo, l.votos[i].voto, l.votos[i].fecha, EstaAprobada(l))]
  }

  /** What `Ley.find({ 'votos.legislador': id })` returns, in the database's order: every stored
      law holding a record of `id`, each once. */
  predicate FindsVotedLaws(st: DbState, id: Id, found: seq<Id>)
  {
    && (forall i :: 0 <= i < |found| ==> found[i] in st.leyes && FindVoto(st.leyes[found[i]].votos, id).Some?)
    && (forall k :: k in st.leyes && FindVoto(st.leyes[k].votos, id).Some? ==> k in found)
    && (forall i, j :: 0 <= i < j < |found| ==> found[i] != found[j])
  }

  /** The stored laws with the ids of `found`, in that order. */
  function LeyesAt(st: DbState, found: seq<Id>): (r: seq<Ley>)
    requires forall i :: 0 <= i < |found| ==> found[i] in st.leyes
    ensures |r| == |found|
    ensures forall i :: 0 <= i < |found| ==> r[i] == st.leyes[found[i]]
  {
    if |found| == 0 then []
    else LeyesAt(st, found[..|found| - 1]) + [st.leyes[found[|found| - 1]]]
  }

  /** `getEstadisticasLegislador` for the user `id`, over the laws the query `found` lists: the
      user must exist and be a legislator; then the laws are tallied. */
  method EstadisticasLegislador(st: DbState, id: Id, found: seq<Id>)
    returns (r: Reply<Estadisticas>, historial: seq<Historial>)
    requires FindsVotedLaws(st, id, found)
    ensures r.Done? <==> id in st.users && st.users[id].role == Legislador
    ensures !r.Done? ==> r == Refused(NotFound) && historial == []
    ensures var leyes := LeyesAt(st, found);
      r.Done? ==> r.value == Estadisticas(VotedLaws(leyes, id), VotedWith(leyes, id, A_FAVOR),
                                          VotedWith(leyes, id, EN_CONTRA), VotedWith(leyes, id, ABSTENCION),
                                          VotedWith(leyes, id, PRESENTE))
    ensures r.Done? ==> historial == HistorialOf(LeyesAt(st, found), id)
  {
    if id !in st.users || st.users[id].role != Legislador {
      return Refused(NotFound), [];
    }
    var e;
    e, historial := TallyVotes(LeyesAt(st, found), id);
    r := Done(e);
  }

  /** The loop of `getEstadisticasLegislador`: counts the laws holding a record of `id` and the
      value of each, and lists one history line per such law. */
  method TallyVotes(leyes: seq<Ley>, id: Id) returns (e: Estadisticas, historial: seq<Historial>)
    ensures e == Estadisticas(VotedLaws(leyes, id), VotedWith(leyes, id, A_FAVOR),
                              VotedWith(leyes, id, EN_CONTRA), VotedWith(leyes, id, ABSTENCION),
                              VotedWith(leyes, id, PRESENTE))
    ensures historial == HistorialOf(leyes, id)
  {
    e := Estadisticas(0, 0, 0, 0, 0);
    historial := [];
    var n := 0;
    while n < |leyes|
      invariant 0 <= n <= |leyes|
      invariant e == Estadisticas(VotedLaws(leyes[..n], id), VotedWith(leyes[..n], id, A_FAVOR),
                                  VotedWith(leyes[..n], id, EN_CONTRA), VotedWith(leyes[..n], id, ABSTENCION),
                                  VotedWith(leyes[..n], id, PRESENTE))
      invariant historial == HistorialOf(leyes[..n], id)
    {
      var ley := leyes[n];
      assert leyes[..n + 1][..n] == leyes[..n];
      var voto := FindVoto(ley.votos, id);
      if voto.Some? {
        var rec := ley.votos[voto.value];
        e := e.(totalVotos := e.totalVotos + 1);
        match rec.voto {
          case A_FAVOR => e := e.(votosAFavor := e.votosAFavor + 1);
          case EN_CONTRA => e := e.(votosEnContra := e.votosEnContra + 1);
          case ABSTENCION => e := e.(abstenciones := e.abstenciones + 1);
          case PRESENTE => e := e.(presentes := e.presentes + 1);
          case AUSENTE =>
        }
        historial := historial + [Historial(ley.titulo, rec.voto, rec.fecha, EstaAprobada(ley))];
      }
      n := n + 1;
    }
    assert leyes[..n] == leyes;
  }

  /** The four per-value counters sum to the total less the laws where the legislator's
      record is AUSENTE. */
  lemma {:induction false} StatsPartition(leyes: seq<Ley>, id: Id)
    ensures VotedWith(leyes, id, A_FAVOR) + VotedWith(leyes, id, EN_CONTRA) + VotedWith(leyes, id, ABSTENCION)
            + VotedWith(leyes, id, PRESENTE) == VotedLaws(leyes, id) - VotedWith(leyes, id, AUSENTE)
  {
    if |leyes| > 0 {
      var l := leyes[|leyes| - 1];
      StatsPartition(leyes[..|leyes| - 1], id);
      match FindVoto(l.votos, id)
      case None =>
        assert VoteOn(l, id) == None;
      case Some(i) =>
        var w := l.votos[i].voto;
        assert VoteOn(l, id) == Some(w);
        match w
        case AUSENTE =>
        case PRESENTE =>
        case A_FAVOR =>
        case EN_CONTRA =>
        case ABSTENCION =>
    }
  }

  /** The history has one line per law holding the legislator's record. */
  lemma {:induction false} HistorialLength(leyes: seq<Ley>, id: Id)
    ensures |HistorialOf(leyes, id)| == VotedLaws(leyes, id)
  {
    if |leyes| > 0 {
      HistorialLength(leyes[..|leyes| - 1], id);
    }
  }

  /** When every law holds a record of `id`, each one counts toward `totalVotos`. */
  lemma {:induction false} AllVotedCount(leyes: seq<Ley>, id: Id)
    requires forall i :: 0 <= i < |leyes| ==> FindVoto(leyes[i].votos, id).Some?
    ensures VotedLaws(leyes, id) == |leyes|
  {
    if |leyes| > 0 {
      AllVotedCount(leyes[..|leyes| - 1], id);
    }
  }

  /** Every law the query lists holds the legislator's record, so `totalVotos` is the number of
      laws listed and the history has one line per listed law. */
  lemma StatsCountFound(st: DbState, id: Id, found: seq<Id>)
    requires FindsVotedLaws(st, id, found)
    ensures VotedLaws(LeyesAt(st, found), id) == |found|
    ensures |HistorialOf(LeyesAt(st, found), id)| == |found|
  {
    var leyes := LeyesAt(st, found);
    assert forall i :: 0 <= i < |leyes| ==> FindVoto(leyes[i].votos, id).Some?;
    AllVotedCount(leyes, id);
    HistorialLength(leyes, id);
  }
}
