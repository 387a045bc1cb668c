/** The session controller: creating and editing sessions, the law list, the lifecycle
    transitions (activate, finish, cancel, delete) and the tally sync with the ledger. */
module SesionController {
  import opened Base
  import opened BlockchainService
  import opened LeyModel
  import opened SesionModel
  import opened Store
  import opened FieldFilter

  /** A finished or cancelled session: no law can be added and it cannot be cancelled. */
  predicate Closed(e: EstadoSesion)
  {
    e == Finished || e == EstadoSesion.Cancelled
  }

  // ---------------------------------------------------------------------------------
  // crearSesion

  /** `req.body.tipoVotacion || 'simple'`. */
  function TipoOrDefault(tipo: Option<string>): (s: string)
    ensures tipo.None? || tipo.value == "" ==> s == "simple"
    ensures tipo.Some? && tipo.value != "" ==> s == tipo.value
  {
    if tipo.Some? && tipo.value != "" then tipo.value else "simple"
  }

  /** `req.body.quorumRequerido || 50`. */
  function QuorumOrDefault(quorum: Option<int>): (q: int)
    ensures quorum.None? || quorum.value == 0 ==> q == QUORUM_DEFAULT
    ensures quorum.Some? && quorum.value != 0 ==> q == quorum.value
  {
    if quorum.Some? && quorum.value != 0 then quorum.value else QUORUM_DEFAULT
  }

  /** The route validators of `POST /sesiones`. */
  predicate CrearSesionInputOk(titulo: string, descripcion: string, fecha: string)
  {
    5 <= |titulo| <= 200 && 10 <= |descripcion| <= 1000 && |fecha| > 0
  }

  function Crear(st: DbState, titulo: string, descripcion: string, fecha: string, creadoPor: Id,
                 tipo: Option<string>, quorum: Option<int>, now: Time): Step<Id>
  {
    if !CrearSesionInputOk(titulo, descripcion, fecha) then Step(Refused(InvalidInput), st)
    else match ParseTipoVotacion(TipoOrDefault(tipo))
      case None => Step(SaveRejected, st)
      case Some(t) =>
        var s := NewSesion(titulo, descripcion, fecha, creadoPor, t, QuorumOrDefault(quorum), now);
        if CanSaveSesion(st, st.nextId, s) then
          Step(Done(st.nextId), st.(sesiones := st.sesiones[st.nextId := s], nextId := st.nextId + 1))
        else Step(SaveRejected, st)
  }

  /** `crearSesion`. */
  method CrearSesion(db: Db, titulo: string, descripcion: string, fecha: string, creadoPor: Id,
                     tipo: Option<string>, quorum: Option<int>, now: Time) returns (reply: Reply<Id>)
    modifies db
    ensures Step(reply, db.State()) == Crear(old(db.State()), titulo, descripcion, fecha, creadoPor, tipo, quorum, now)
  {
    if !CrearSesionInputOk(titulo, descripcion, fecha) {
      return Refused(InvalidInput);
    }
    var t := ParseTipoVotacion(TipoOrDefault(tipo));
    if t.None? {
      return SaveRejected;
    }
    var s := NewSesion(titulo, descripcion, fecha, creadoPor, t.value, QuorumOrDefault(quorum), now);
    if !CanSaveSesion(db.State(), db.nextId, s) {
      return SaveRejected;
    }
    var id := db.nextId;
    db.sesiones := db.sesiones[id := s];
    db.nextId := id + 1;
    reply := Done(id);
  }

  /** A created session is a new draft under a fresh id, off the ledger and without laws; a
      missing or empty voting type is `simple` and a missing or zero quorum is 50. */
  lemma CrearDefaults(st: DbState, titulo: string, descripcion: string, fecha: string, creadoPor: Id,
                      tipo: Option<string>, quorum: Option<int>, now: Time)
    ensures var r := Crear(st, titulo, descripcion, fecha, creadoPor, tipo, quorum, now);
      && (r.reply.Done? ==>
            var s := r.st.sesiones[r.reply.value];
            && r.reply.value == st.nextId
            && s.estado == EstadoSesion.Draft && !s.isOnBlockchain && s.blockchainId.None? && s.leyes == []
            && (tipo.None? || tipo.value == "" ==> s.tipoVotacion == Simple)
            && (quorum.None? || quorum.value == 0 ==> s.quorumRequerido == QUORUM_DEFAULT)
            && 1 <= s.quorumRequerido <= 100)
      && (r.reply.Done? <==>
            CrearSesionInputOk(titulo, descripcion, fecha)
            && ParseTipoVotacion(TipoOrDefault(tipo)).Some?
            && 1 <= QuorumOrDefault(quorum) <= 100)
      && (!r.reply.Done? ==> r.st == st)
  {
  }

  lemma CrearPreserves(st: DbState, titulo: string, descripcion: string, fecha: string, creadoPor: Id,
                       tipo: Option<string>, quorum: Option<int>, now: Time)
    requires Valid(st) && Coherent(st)
    ensures Valid(Crear(st, titulo, descripcion, fecha, creadoPor, tipo, quorum, now).st)
    ensures Coherent(Crear(st, titulo, descripcion, fecha, creadoPor, tipo, quorum, now).st)
  {
    var r := Crear(st, titulo, descripcion, fecha, creadoPor, tipo, quorum, now);
    if r.reply.Done? {
      var s := r.st.sesiones[st.nextId];
      assert r.st == SetSesion(st.(nextId := st.nextId + 1), st.nextId, s);
      FreshIdValid(st);
      SetSesionValid(st.(nextId := st.nextId + 1), st.nextId, s);
    }
  }

  // ---------------------------------------------------------------------------------
  // updateSesion and updateLey: allow-lists and update validators

  const SESION_FIELDS: seq<string> := ["titulo", "descripcion", "fecha", "tipoVotacion", "quorumRequerido"]
  const LEY_FIELDS: seq<string> := ["titulo", "descripcion", "categoria"]

  /** The session after the update, when every given value has the field's type and enum. */
  function ApplySesion(s: Sesion, u: Body): Option<Sesion>
  {
    var titulo := StrField(u, "titulo", s.titulo);
    var descripcion := StrField(u, "descripcion", s.descripcion);
    var fecha := StrField(u, "fecha", s.fecha);
    var tipo := if "tipoVotacion" !in u then Some(s.tipoVotacion)
                else if u["tipoVotacion"].JStr? then ParseTipoVotacion(u["tipoVotacion"].str) else None;
    var quorum := IntField(u, "quorumRequerido", s.quorumRequerido);
    if titulo.Some? && descripcion.Some? && fecha.Some? && tipo.Some? && quorum.Some? then
      Some(s.(titulo := titulo.value, descripcion := descripcion.value, fecha := fecha.value,
              tipoVotacion := tipo.value, quorumRequerido := quorum.value))
    else None
  }

  /** The update validators `runValidators` asks for: each value given has its field's type
      and passes that field's own limits. Mongoose casts and validates the update before it
      looks the session up. */
  predicate SesionUpdateOk(u: Body)
  {
    && ("titulo" in u ==> u["titulo"].JStr? && 0 < |u["titulo"].str| <= SesionModel.MAX_TITULO)
    && ("descripcion" in u ==> u["descripcion"].JStr? && 0 < |u["descripcion"].str| <= SesionModel.MAX_DESCRIPCION)
    && ("fecha" in u ==> u["fecha"].JStr? && |u["fecha"].str| > 0)
    && ("tipoVotacion" in u ==> u["tipoVotacion"].JStr? && ParseTipoVotacion(u["tipoVotacion"].str).Some?)
    && ("quorumRequerido" in u ==> u["quorumRequerido"].JNum?
                                   && QUORUM_MIN <= u["quorumRequerido"].num <= QUORUM_MAX)
  }

  function UpdateSesionSpec(st: DbState, id: Id, body: Body): Step<Sesion>
  {
    var u := Filtered(body, SESION_FIELDS);
    if !SesionUpdateOk(u) then Step(SaveRejected, st)
    else if id !in st.sesiones then Step(Refused(NotFound), st)
    else match ApplySesion(st.sesiones[id], u)
      case None => Step(SaveRejected, st)
      case Some(s2) =>
        if CanSaveSesion(st, id, s2) then Step(Done(s2), SetSesion(st, id, s2)) else Step(SaveRejected, st)
  }

  /** `updateSesion`: copies the allowed keys of the body, then updates with validators. */
  method UpdateSesion(db: Db, id: Id, body: Body) returns (reply: Reply<Sesion>)
    modifies db
    ensures Step(reply, db.State()) == UpdateSesionSpec(old(db.State()), id, body)
  {
    var updateData := FilterObj(body, SESION_FIELDS);
    if !SesionUpdateOk(updateData) {
      return SaveRejected;
    }
    if id !in db.sesiones {
      return Refused(NotFound);
    }
    var s2 := ApplySesion(db.sesiones[id], updateData);
    if s2.None? || !CanSaveSesion(db.State(), id, s2.value) {
      return SaveRejected;
    }
    db.sesiones := db.sesiones[id := s2.value];
    reply := Done(s2.value);
  }

  /** The update validators decide first, whether or not the session exists. On a valid store
      an existing session is then updated exactly when they pass, and takes the given values. */
  lemma UpdateSesionEffect(st: DbState, id: Id, body: Body)
    requires Valid(st)
    ensures var u := Filtered(body, SESION_FIELDS);
      var r := UpdateSesionSpec(st, id, body);
      && (!SesionUpdateOk(u) ==> r == Step(SaveRejected, st))
      && (SesionUpdateOk(u) && id !in st.sesiones ==> r == Step(Refused(NotFound), st))
      && (id in st.sesiones ==> (r.reply.Done? <==> SesionUpdateOk(u)))
      && (r.reply.Done? ==>
            var s2 := r.reply.value;
            && r.st == SetSesion(st, id, s2)
            && s2.titulo == (if "titulo" in u then u["titulo"].str else st.sesiones[id].titulo)
            && s2.descripcion == (if "descripcion" in u then u["descripcion"].str else st.sesiones[id].descripcion)
            && s2.fecha == (if "fecha" in u then u["fecha"].str else st.sesiones[id].fecha)
            && s2.quorumRequerido == (if "quorumRequerido" in u then u["quorumRequerido"].num
                                      else st.sesiones[id].quorumRequerido)
            && ("tipoVotacion" in u ==> Some(s2.tipoVotacion) == ParseTipoVotacion(u["tipoVotacion"].str)))
      && (!r.reply.Done? ==> r.st == st)
  {
    var u := Filtered(body, SESION_FIELDS);
    if SesionUpdateOk(u) && id in st.sesiones {
      var s := st.sesiones[id];
      assert CanSaveSesion(st, id, s);
      var s2 := ApplySesion(s, u);
      assert s2.Some?;
      ResaveSesionAdmitted(st, id, s2.value);
    }
  }

  /** An update changes at most the five editable fields of that one session: never its
      state, ledger fields or law list. */
  lemma UpdateSesionOnlyEditable(st: DbState, id: Id, body: Body)
    ensures var r := UpdateSesionSpec(st, id, body);
      && r.st.leyes == st.leyes && r.st.users == st.users && r.st.nextId == st.nextId
      && r.st.sesiones.Keys == st.sesiones.Keys
      && (forall k :: k in st.sesiones && k != id ==> r.st.sesiones[k] == st.sesiones[k])
      && (id in st.sesiones ==>
            var s := st.sesiones[id];
            var s2 := r.st.sesiones[id];
            && s2.estado == s.estado && s2.blockchainId == s.blockchainId && s2.isOnBlockchain == s.isOnBlockchain
            && s2.transactionHash == s.transactionHash && s2.leyes == s.leyes && s2.creadoPor == s.creadoPor)
      && (forall k :: k in body && k !in SESION_FIELDS ==> r.st == UpdateSesionSpec(st, id, body - {k}).st)
  {
    var r := UpdateSesionSpec(st, id, body);
    forall k | k in body && k !in SESION_FIELDS
      ensures r.st == UpdateSesionSpec(st, id, body - {k}).st
    {
      assert Filtered(body, SESION_FIELDS) == Filtered(body - {k}, SESION_FIELDS);
    }
  }

  function ApplyLey(l: Ley, u: Body): Option<Ley>
  {
    var titulo := StrField(u, "titulo", l.titulo);
    var descripcion := StrField(u, "descripcion", l.descripcion);
    var categoria := if "categoria" !in u then Some(l.categoria)
                     else if u["categoria"].JStr? then ParseCategoria(u["categoria"].str) else None;
    if titulo.Some? && descripcion.Some? && categoria.Some? then
      Some(l.(titulo := titulo.value, descripcion := descripcion.value, categoria := categoria.value))
    else None
  }

  function UpdateLeySpec(st: DbState, sesionId: Id, leyId: Id, body: Body): Step<Ley>
  {
    if leyId !in st.leyes || st.leyes[leyId].sesion != sesionId then Step(Refused(NotFound), st)
    else match ApplyLey(st.leyes[leyId], Filtered(body, LEY_FIELDS))
      case None => Step(SaveRejected, st)
      case Some(l2) =>
        if CanSaveLey(st, leyId, l2) then Step(Done(l2), SetLey(st, leyId, l2)) else Step(SaveRejected, st)
  }

  /** `updateLey`: looks the law up in the session, then copies the allowed keys and updates. */
  method UpdateLey(db: Db, sesionId: Id, leyId: Id, body: Body) returns (reply: Reply<Ley>)
    modifies db
    ensures Step(reply, db.State()) == UpdateLeySpec(old(db.State()), sesionId, leyId, body)
  {
    if leyId !in db.leyes || db.leyes[leyId].sesion != sesionId {
      return Refused(NotFound);
    }
    var updateData := FilterObj(body, LEY_FIELDS);
    var l2 := ApplyLey(db.leyes[leyId], updateData);
    if l2.None? || !CanSaveLey(db.State(), leyId, l2.value) {
      return SaveRejected;
    }
    db.leyes := db.leyes[leyId := l2.value];
    reply := Done(l2.value);
  }

  /** An update changes at most the title, description and category of that one law: never
      its state, tally, records or ledger fields, whatever state the law is in. */
  lemma UpdateLeyOnlyEditable(st: DbState, sesionId: Id, leyId: Id, body: Body)
    ensures var r := UpdateLeySpec(st, sesionId, leyId, body);
      && r.st.sesiones == st.sesiones && r.st.users == st.users && r.st.nextId == st.nextId
      && r.st.leyes.Keys == st.leyes.Keys
      && (forall k :: k in st.leyes && k != leyId ==> r.st.leyes[k] == st.leyes[k])
      && (leyId in st.leyes ==>
            r.st.leyes[leyId] == st.leyes[leyId].(titulo := r.st.leyes[leyId].titulo,
                                                  descripcion := r.st.leyes[leyId].descripcion,
                                                  categoria := r.st.leyes[leyId].categoria))
  {
  }

  lemma UpdateSesionPreserves(st: DbState, id: Id, body: Body)
    requires Valid(st) && Coherent(st)
    ensures Valid(UpdateSesionSpec(st, id, body).st) && Coherent(UpdateSesionSpec(st, id, body).st)
  {
    var r := UpdateSesionSpec(st, id, body);
    if r.reply.Done? {
      SetSesionValid(st, id, r.reply.value);
      SetSesionCoherent(st, id, r.reply.value);
    }
  }

  lemma UpdateLeyPreserves(st: DbState, sesionId: Id, leyId: Id, body: Body)
    requires Valid(st) && Coherent(st)
    ensures Valid(UpdateLeySpec(st, sesionId, leyId, body).st) && Coherent(UpdateLeySpec(st, sesionId, leyId, body).st)
  {
    var r := UpdateLeySpec(st, sesionId, leyId, body);
    if r.reply.Done? {
      SetLeyValid(st, leyId, r.reply.value);
      SetLeyCoherent(st, leyId, r.reply.value);
    }
  }

  // ---------------------------------------------------------------------------------
  // deleteSesion

  function DeleteSesionSpec(st: DbState, id: Id): Step<()>
  {
    if id !in st.sesiones then Step(Refused(NotFound), st)
    else if st.sesiones[id].estado == Active || st.sesiones[id].estado == Finished then Step(Refused(WrongState), st)
    else Step(Done(()), st.(sesiones := st.sesiones - {id},
                            leyes := map k | k in st.leyes && st.leyes[k].sesion != id :: st.leyes[k]))
  }

  /** `deleteSesion`: `Ley.deleteMany({ sesion })`, then the session itself. */
  method DeleteSesion(db: Db, id: Id) returns (reply: Reply<()>)
    modifies db
    ensures Step(reply, db.State()) == DeleteSesionSpec(old(db.State()), id)
  {
    if id !in db.sesiones {
      return Refused(NotFound);
    }
    if db.sesiones[id].estado == Active || db.sesiones[id].estado == Finished {
      return Refused(WrongState);
    }
    db.leyes := map k | k in db.leyes && db.leyes[k].sesion != id :: db.leyes[k];
    db.sesiones := db.sesiones - {id};
    reply := Done(());
  }

  /** Deletion is refused exactly for active and finished sessions, so draft and cancelled
      ones go, with every law that belongs to them, whatever votes they hold. */
  lemma DeleteSesionEffect(st: DbState, id: Id)
    requires id in st.sesiones
    ensures var r := DeleteSesionSpec(st, id);
      && (r.reply.Done? <==> (st.sesiones[id].estado == EstadoSesion.Draft || st.sesiones[id].estado == EstadoSesion.Cancelled))
      && (r.reply.Done? ==>
            && id !in r.st.sesiones
            && (forall k :: k in r.st.leyes <==> k in st.leyes && st.leyes[k].sesion != id)
            && (forall k :: k in r.st.leyes ==> r.st.leyes[k] == st.leyes[k]))
      && (!r.reply.Done? ==> r.st == st)
  {
  }

  lemma DeleteSesionPreserves(st: DbState, id: Id)
    requires Valid(st) && Coherent(st)
    ensures Valid(DeleteSesionSpec(st, id).st) && Coherent(DeleteSesionSpec(st, id).st)
  {
    var r := DeleteSesionSpec(st, id);
    if r.reply.Done? {
      RemoveValid(st, r.st);
    }
  }

  // ---------------------------------------------------------------------------------
  // agregarLey

  /** The route validators of `POST /sesiones/:id/leyes`; the category, when given, must be
      one of the seven names. */
  function AgregarLeyInput(titulo: string, descripcion: string, categoria: Option<string>): (r: Option<Option<Categoria>>)
    ensures r.Some? <==> 5 <= |titulo| <= 300 && 10 <= |descripcion| <= 2000
                         && (categoria.Some? ==> ParseCategoria(categoria.value).Some?)
    ensures r.Some? && categoria.None? ==> r.value.None?
  {
    if !(5 <= |titulo| <= 300 && 10 <= |descripcion| <= 2000) then None
    else if categoria.None? then Some(None)
    else match ParseCategoria(categoria.value)
      case None => None
      case Some(c) => Some(Some(c))
  }

  function Agregar(st: DbState, sesionId: Id, titulo: string, descripcion: string,
                   categoria: Option<string>, creadoPor: Id, now: Time, ix: LawIndex): Step<Id>
  {
    var input := AgregarLeyInput(titulo, descripcion, categoria);
    if input.None? then Step(Refused(InvalidInput), st)
    else if sesionId !in st.sesiones then Step(Refused(NotFound), st)
    else if Closed(st.sesiones[sesionId].estado) then Step(Refused(WrongState), st)
    else
      var lid := st.nextId;
      var l := NewLey(titulo, descripcion, input.value, sesionId, creadoPor, now);
      if !CanCreateLey(ix, st, lid, l) then Step(SaveRejected, st)
      else
        var st1 := st.(leyes := st.leyes[lid := l], nextId := lid + 1);
        var s := st.sesiones[sesionId];
        var s2 := s.(leyes := s.leyes + [lid]);
        if CanSaveSesion(st1, sesionId, s2) then Step(Done(lid), SetSesion(st1, sesionId, s2))
        else Step(SaveRejected, st1)
  }

  /** `agregarLey`: creates the law, then appends its id to the session's list. The law index
      is read as `ix` says. */
  method AgregarLey(db: Db, sesionId: Id, titulo: string, descripcion: string,
                    categoria: Option<string>, creadoPor: Id, now: Time, ix: LawIndex) returns (reply: Reply<Id>)
    modifies db
    ensures Step(reply, db.State()) == Agregar(old(db.State()), sesionId, titulo, descripcion, categoria, creadoPor, now, ix)
  {
    var input := AgregarLeyInput(titulo, descripcion, categoria);
    if input.None? {
      return Refused(InvalidInput);
    }
    if sesionId !in db.sesiones {
      return Refused(NotFound);
    }
    var sesion := db.sesiones[sesionId];
    if Closed(sesion.estado) {
      return Refused(WrongState);
    }
    var lid := db.nextId;
    var nuevaLey := NewLey(titulo, descripcion, input.value, sesionId, creadoPor, now);
    if !CanCreateLey(ix, db.State(), lid, nuevaLey) {
      return SaveRejected;
    }
    db.leyes := db.leyes[lid := nuevaLey];
    db.nextId := lid + 1;
    var s2 := sesion.(leyes := sesion.leyes + [lid]);
    if !CanSaveSesion(db.State(), sesionId, s2) {
      return SaveRejected;
    }
    db.sesiones := db.sesiones[sesionId := s2];
    reply := Done(lid);
  }

  /** Every law of the session is on the ledger: the condition under which the index as
      declared admits one more law that is not. */
  predicate NoLawOffLedger(st: DbState, sesionId: Id)
  {
    forall k :: k in st.leyes && st.leyes[k].sesion == sesionId ==> st.leyes[k].blockchainId.Some?
  }

  /** A law is added only to a draft or active session; it is a new draft law, off the ledger
      with a zero tally, and its id is appended at the end of the session's list. In a valid
      store the session's save always succeeds; the law's save succeeds always under the
      intended index, and under the index as declared only while no law of the session is
      off the ledger. */
  lemma AgregarEffect(st: DbState, sesionId: Id, titulo: string, descripcion: string,
                      categoria: Option<string>, creadoPor: Id, now: Time, ix: LawIndex)
    requires Valid(st) && sesionId in st.sesiones
    requires AgregarLeyInput(titulo, descripcion, categoria).Some?
    ensures var r := Agregar(st, sesionId, titulo, descripcion, categoria, creadoPor, now, ix);
      && (r.reply.Done? <==>
            !Closed(st.sesiones[sesionId].estado) && (ix == AsDeclared ==> NoLawOffLedger(st, sesionId)))
      && (r.reply.Done? ==>
            var lid := r.reply.value;
            && lid !in st.leyes
            && r.st.leyes == st.leyes[lid := r.st.leyes[lid]]
            && r.st.leyes[lid].estado == EstadoLey.Draft && !r.st.leyes[lid].isOnBlockchain
            && r.st.leyes[lid].conteo == CONTEO_INICIAL && r.st.leyes[lid].votos == []
            && r.st.leyes[lid].sesion == sesionId
            && (categoria.None? ==> r.st.leyes[lid].categoria == Otra)
            && r.st.sesiones[sesionId].leyes == st.sesiones[sesionId].leyes + [lid])
      && (!r.reply.Done? ==> r.st == st)
  {
    var lid := st.nextId;
    var input := AgregarLeyInput(titulo, descripcion, categoria);
    var l := NewLey(titulo, descripcion, input.value, sesionId, creadoPor, now);
    DraftLawAdmitted(st, lid, l);
    if Closed(st.sesiones[sesionId].estado) {
      assert Agregar(st, sesionId, titulo, descripcion, categoria, creadoPor, now, ix).reply == Refused(WrongState);
    } else if ix == AsDeclared && !NoLawOffLedger(st, sesionId) {
      var k :| k in st.leyes && st.leyes[k].sesion == sesionId && st.leyes[k].blockchainId.None?;
      assert k != lid;
      assert !LawKeyFreeAsWritten(st, lid, l);
      assert Agregar(st, sesionId, titulo, descripcion, categoria, creadoPor, now, ix).reply == SaveRejected;
    } else {
      assert CanCreateLey(ix, st, lid, l);
      var st1 := st.(leyes := st.leyes[lid := l], nextId := lid + 1);
      var s := st.sesiones[sesionId];
      var s2 := s.(leyes := s.leyes + [lid]);
      assert CanSaveSesion(st, sesionId, s);
      assert CanSaveSesion(st1, sesionId, s2);
      assert Agregar(st, sesionId, titulo, descripcion, categoria, creadoPor, now, ix).reply == Done(lid);
    }
  }

  /** The index as declared refuses a law for a session that already holds one off the
      ledger, such as a second draft law, after every check of the handler has passed. */
  lemma SecondDraftLawRefusedAsDeclared(st: DbState, sesionId: Id, titulo: string, descripcion: string,
                                        categoria: Option<string>, creadoPor: Id, now: Time, k: Id)
    requires Valid(st) && sesionId in st.sesiones && !Closed(st.sesiones[sesionId].estado)
    requires AgregarLeyInput(titulo, descripcion, categoria).Some?
    requires k in st.leyes && st.leyes[k].sesion == sesionId && st.leyes[k].blockchainId.None?
    ensures Agregar(st, sesionId, titulo, descripcion, categoria, creadoPor, now, AsDeclared) == Step(SaveRejected, st)
    ensures Agregar(st, sesionId, titulo, descripcion, categoria, creadoPor, now, OnLedgerOnly).reply.Done?
  {
    AgregarEffect(st, sesionId, titulo, descripcion, categoria, creadoPor, now, AsDeclared);
    AgregarEffect(st, sesionId, titulo, descripcion, categoria, creadoPor, now, OnLedgerOnly);
  }

  /** Adding a law raises the session's `cantidadLeyes` by exactly one. */
  lemma AgregarRaisesCantidad(st: DbState, sesionId: Id, titulo: string, descripcion: string,
                              categoria: Option<string>, creadoPor: Id, now: Time, ix: LawIndex)
    requires Agregar(st, sesionId, titulo, descripcion, categoria, creadoPor, now, ix).reply.Done?
    ensures sesionId in st.sesiones
    ensures var st2 := Agregar(st, sesionId, titulo, descripcion, categoria, creadoPor, now, ix).st;
      CantidadLeyes(st2.sesiones[sesionId]) == CantidadLeyes(st.sesiones[sesionId]) + 1
  {
  }

  lemma AgregarPreserves(st: DbState, sesionId: Id, titulo: string, descripcion: string,
                         categoria: Option<string>, creadoPor: Id, now: Time, ix: LawIndex)
    requires Valid(st) && Coherent(st)
    ensures Valid(Agregar(st, sesionId, titulo, descripcion, categoria, creadoPor, now, ix).st)
    ensures Coherent(Agregar(st, sesionId, titulo, descripcion, categoria, creadoPor, now, ix).st)
  {
    var r := Agregar(st, sesionId, titulo, descripcion, categoria, creadoPor, now, ix);
    if r.reply.Done? {
      AgregarDoneShape(st, sesionId, titulo, descripcion, categoria, creadoPor, now, ix);
      var l := NewLey(titulo, descripcion, AgregarLeyInput(titulo, descripcion, categoria).value,
                      sesionId, creadoPor, now);
      var s := st.sesiones[sesionId];
      AgregarValid(st, sesionId, l, s.(leyes := s.leyes + [st.nextId]));
      AgregarCoherent(st, r.st, sesionId, st.nextId);
    }
  }

  /** What a successful add consists of: the new law, admitted under `ix` and hence by the
      store invariant, and the session with its id appended, admitted too. */
  lemma AgregarDoneShape(st: DbState, sesionId: Id, titulo: string, descripcion: string,
                         categoria: Option<string>, creadoPor: Id, now: Time, ix: LawIndex)
    requires Agregar(st, sesionId, titulo, descripcion, categoria, creadoPor, now, ix).reply.Done?
    ensures AgregarLeyInput(titulo, descripcion, categoria).Some?
    ensures sesionId in st.sesiones && !Closed(st.sesiones[sesionId].estado)
    ensures var l := NewLey(titulo, descripcion, AgregarLeyInput(titulo, descripcion, categoria).value,
                            sesionId, creadoPor, now);
      var s := st.sesiones[sesionId];
      var st1 := SetLey(st.(nextId := st.nextId + 1), st.nextId, l);
      && CanSaveLey(st.(nextId := st.nextId + 1), st.nextId, l)
      && CanSaveSesion(st1, sesionId, s.(leyes := s.leyes + [st.nextId]))
      && Agregar(st, sesionId, titulo, descripcion, categoria, creadoPor, now, ix).st
         == SetSesion(st1, sesionId, s.(leyes := s.leyes + [st.nextId]))
  {
    var l := NewLey(titulo, descripcion, AgregarLeyInput(titulo, descripcion, categoria).value,
                    sesionId, creadoPor, now);
    CreatedLeyAdmitted(ix, st.(nextId := st.nextId + 1), st.nextId, l);
  }

  lemma AgregarValid(st: DbState, sesionId: Id, l: Ley, s2: Sesion)
    requires Valid(st) && sesionId in st.sesiones
    requires CanSaveLey(st.(nextId := st.nextId + 1), st.nextId, l)
    requires CanSaveSesion(SetLey(st.(nextId := st.nextId + 1), st.nextId, l), sesionId, s2)
    ensures Valid(SetSesion(SetLey(st.(nextId := st.nextId + 1), st.nextId, l), sesionId, s2))
  {
    FreshIdValid(st);
    SetLeyValid(st.(nextId := st.nextId + 1), st.nextId, l);
    SetSesionValid(SetLey(st.(nextId := st.nextId + 1), st.nextId, l), sesionId, s2);
  }

  lemma AgregarCoherent(st: DbState, st2: DbState, sesionId: Id, lid: Id)
    requires Coherent(st) && sesionId in st.sesiones && !Closed(st.sesiones[sesionId].estado)
    requires lid == st.nextId && st2.nextId == lid + 1
    requires st2.leyes.Keys == st.leyes.Keys + {lid}
    requires forall k :: k in st.leyes ==> st2.leyes[k] == st.leyes[k]
    requires st2.leyes[lid].sesion == sesionId && st2.leyes[lid].estado == EstadoLey.Draft
    requires st2.sesiones == st.sesiones[sesionId := st.sesiones[sesionId].(leyes := st.sesiones[sesionId].leyes + [lid])]
    ensures Coherent(st2)
  {
    forall k | k in st2.leyes
      ensures st2.leyes[k].sesion in st2.sesiones
              && StateFits(st2.sesiones[st2.leyes[k].sesion].estado, st2.leyes[k].estado)
    {
    }
    forall s, i | s in st2.sesiones && 0 <= i < |st2.sesiones[s].leyes|
      ensures st2.sesiones[s].leyes[i] < st2.nextId
              && (st2.sesiones[s].leyes[i] in st2.leyes ==> st2.leyes[st2.sesiones[s].leyes[i]].sesion == s)
    {
      if s == sesionId && i == |st.sesiones[sesionId].leyes| {
      } else {
        assert st2.sesiones[s].leyes[i] == st.sesiones[s].leyes[i];
      }
    }
  }

  // ---------------------------------------------------------------------------------
  // eliminarLey

  /** `$pull`: every occurrence of `x` removed, the rest in order. */
  function Pull(xs: seq<Id>, x: Id): (r: seq<Id>)
    ensures x !in r
    ensures forall y :: y != x ==> (y in r <==> y in xs)
    ensures multiset(r) == multiset(xs)[x := 0]
    ensures |r| == |xs| - multiset(xs)[x]
  {
    if |xs| == 0 then []
    else
      assert xs == [xs[0]] + xs[1..];
      (if xs[0] == x then [] else [xs[0]]) + Pull(xs[1..], x)
  }

  /** `$pull` works element by element, so it keeps the order of the ids it leaves. */
  lemma {:induction false} PullConcat(a: seq<Id>, b: seq<Id>, x: Id)
    ensures Pull(a + b, x) == Pull(a, x) + Pull(b, x)
  {
    if |a| == 0 {
      assert a + b == b;
    } else {
      assert (a + b)[1..] == a[1..] + b;
      PullConcat(a[1..], b, x);
    }
  }

  /** Pulling an absent id leaves the list as it is. */
  lemma {:induction false} PullAbsent(xs: seq<Id>, x: Id)
    requires x !in xs
    ensures Pull(xs, x) == xs
  {
    if |xs| > 0 {
      PullAbsent(xs[1..], x);
    }
  }

  function EliminarSpec(st: DbState, sesionId: Id, leyId: Id): Step<()>
  {
    if leyId !in st.leyes || st.leyes[leyId].sesion != sesionId then Step(Refused(NotFound), st)
    else if |st.leyes[leyId].votos| > 0 then Step(Refused(HasVotes), st)
    else
      var sesiones := if sesionId in st.sesiones
                      then st.sesiones[sesionId := st.sesiones[sesionId].(leyes := Pull(st.sesiones[sesionId].leyes, leyId))]
                      else st.sesiones;
      Step(Done(()), st.(sesiones := sesiones, leyes := st.leyes - {leyId}))
  }

  /** `eliminarLey`: refuses a law that has votes, otherwise pulls its id from the session's
      list and deletes it. */
  method EliminarLey(db: Db, sesionId: Id, leyId: Id) returns (reply: Reply<()>)
    modifies db
    ensures Step(reply, db.State()) == EliminarSpec(old(db.State()), sesionId, leyId)
  {
    if leyId !in db.leyes || db.leyes[leyId].sesion != sesionId {
      return Refused(NotFound);
    }
    if |db.leyes[leyId].votos| > 0 {
      return Refused(HasVotes);
    }
    if sesionId in db.sesiones {
      var s := db.sesiones[sesionId];
      db.sesiones := db.sesiones[sesionId := s.(leyes := Pull(s.leyes, leyId))];
    }
    db.leyes := db.leyes - {leyId};
    reply := Done(());
  }

  /** Removal is refused exactly when the law has vote records, and the session's state is not
      consulted; otherwise the law is gone and its id no longer listed. */
  lemma EliminarEffect(st: DbState, sesionId: Id, leyId: Id)
    requires leyId in st.leyes && st.leyes[leyId].sesion == sesionId && sesionId in st.sesiones
    ensures var r := EliminarSpec(st, sesionId, leyId);
      && (r.reply.Done? <==> st.leyes[leyId].votos == [])
      && (r.reply.Done? ==>
            && leyId !in r.st.leyes && leyId !in r.st.sesiones[sesionId].leyes
            && r.st.sesiones[sesionId].estado == st.sesiones[sesionId].estado
            && (forall k :: k in st.leyes && k != leyId ==> k in r.st.leyes && r.st.leyes[k] == st.leyes[k]))
      && (!r.reply.Done? ==> r.st == st)
  {
  }

  /** Removing a law lowers the session's `cantidadLeyes` by the number of times its id was
      listed, and every other listed id keeps its multiplicity. */
  lemma EliminarLowersCantidad(st: DbState, sesionId: Id, leyId: Id)
    requires sesionId in st.sesiones && EliminarSpec(st, sesionId, leyId).reply.Done?
    ensures var s2 := EliminarSpec(st, sesionId, leyId).st.sesiones[sesionId];
      && CantidadLeyes(s2) == CantidadLeyes(st.sesiones[sesionId]) - multiset(st.sesiones[sesionId].leyes)[leyId]
      && multiset(s2.leyes) == multiset(st.sesiones[sesionId].leyes)[leyId := 0]
  {
    var xs := st.sesiones[sesionId].leyes;
    assert EliminarSpec(st, sesionId, leyId).st.sesiones[sesionId].leyes == Pull(xs, leyId);
  }

  lemma EliminarPreserves(st: DbState, sesionId: Id, leyId: Id)
    requires Valid(st) && Coherent(st)
    ensures Valid(EliminarSpec(st, sesionId, leyId).st) && Coherent(EliminarSpec(st, sesionId, leyId).st)
  {
    var r := EliminarSpec(st, sesionId, leyId);
    if r.reply.Done? {
      assert sesionId in st.sesiones;
      EliminarValid(st, sesionId, leyId);
      EliminarCoherent(st, sesionId, leyId);
    }
  }

  lemma EliminarValid(st: DbState, sesionId: Id, leyId: Id)
    requires Valid(st) && sesionId in st.sesiones && leyId in st.leyes
    ensures Valid(st.(sesiones := st.sesiones[sesionId := st.sesiones[sesionId].(leyes := Pull(st.sesiones[sesionId].leyes, leyId))],
                      leyes := st.leyes - {leyId}))
  {
    var st1 := st.(leyes := st.leyes - {leyId});
    var s2 := st.sesiones[sesionId].(leyes := Pull(st.sesiones[sesionId].leyes, leyId));
    RemoveValid(st, st1);
    ResaveSesionAdmitted(st1, sesionId, s2);
    SetSesionValid(st1, sesionId, s2);
  }

  lemma EliminarCoherent(st: DbState, sesionId: Id, leyId: Id)
    requires Coherent(st) && sesionId in st.sesiones && leyId in st.leyes
    ensures Coherent(st.(sesiones := st.sesiones[sesionId := st.sesiones[sesionId].(leyes := Pull(st.sesiones[sesionId].leyes, leyId))],
                         leyes := st.leyes - {leyId}))
  {
    var ys := Pull(st.sesiones[sesionId].leyes, leyId);
    RemoveLawCoherent(st, sesionId, leyId, ys);
  }

  /** Deleting a law and giving its session any list drawn from its old one keeps the
      coherence. */
  lemma RemoveLawCoherent(st: DbState, sesionId: Id, leyId: Id, ys: seq<Id>)
    requires Coherent(st) && sesionId in st.sesiones && leyId in st.leyes
    requires forall y :: y in ys ==> y in st.sesiones[sesionId].leyes
    ensures Coherent(st.(sesiones := st.sesiones[sesionId := st.sesiones[sesionId].(leyes := ys)],
                         leyes := st.leyes - {leyId}))
  {
    var st2 := st.(sesiones := st.sesiones[sesionId := st.sesiones[sesionId].(leyes := ys)],
                   leyes := st.leyes - {leyId});
    forall s, i | s in st2.sesiones && 0 <= i < |st2.sesiones[s].leyes|
      ensures st2.sesiones[s].leyes[i] < st2.nextId
              && (st2.sesiones[s].leyes[i] in st2.leyes ==> st2.leyes[st2.sesiones[s].leyes[i]].sesion == s)
    {
      var x := st2.sesiones[s].leyes[i];
      assert x in st.sesiones[s].leyes;
      var j :| 0 <= j < |st.sesiones[s].leyes| && st.sesiones[s].leyes[j] == x;
    }
  }

  // ---------------------------------------------------------------------------------
  // activarSesion

  function Activated(s: Sesion, rc: SessionReceipt, now: Time): Sesion
  {
    s.(estado := Active, blockchainId := Some(rc.sesionId), isOnBlockchain := true,
       transactionHash := Some(rc.transactionHash), fechaInicio := Some(now))
  }

  function Registered(l: Ley, rc: LawReceipt): Ley
  {
    l.(blockchainId := Some(rc.leyId), isOnBlockchain := true,
       transactionHash := Some(rc.transactionHash), estado := Voting)
  }

  datatype Fold = Fold(st: DbState, count: nat)

  /** One pass of the registration loop: the law `lid`, when it exists, is registered with the
      outcome of its ledger call and saved when the save admits it. */
  function RegisterOne(st: DbState, lid: Id, call: LedgerResult<LawReceipt>): (r: Fold)
  {
    if lid !in st.leyes then Fold(st, 0)
    else match Wrap(call)
      case LedgerErr(_) => Fold(st, 0)
      case LedgerOk(rc) =>
        var l2 := Registered(st.leyes[lid], rc);
        if CanSaveLey(st, lid, l2) then Fold(SetLey(st, lid, l2), 1) else Fold(st, 0)
  }

  /** The first `n` passes of the registration loop over `ids`; `calls(p)` is the outcome of
      the ledger call for the law at position `p`. */
  function RegisterPrefix(st: DbState, ids: seq<Id>, calls: nat -> LedgerResult<LawReceipt>, n: nat): (r: Fold)
    requires n <= |ids|
  {
    if n == 0 then Fold(st, 0)
    else
      var f := RegisterPrefix(st, ids, calls, n - 1);
      var g := RegisterOne(f.st, ids[n - 1], calls(n - 1));
      Fold(g.st, f.count + g.count)
  }

  function Activar(st: DbState, id: Id, sessionCall: LedgerResult<SessionReceipt>,
                   calls: nat -> LedgerResult<LawReceipt>, now: Time): Step<nat>
  {
    if id !in st.sesiones then Step(Refused(NotFound), st)
    else if st.sesiones[id].estado != EstadoSesion.Draft then Step(Refused(WrongState), st)
    else if |st.sesiones[id].leyes| == 0 then Step(Refused(NoLaws), st)
    else match Wrap(sessionCall)
      case LedgerErr(m) => Step(LedgerFailed(m), st)
      case LedgerOk(rc) =>
        var s := st.sesiones[id];
        var s2 := Activated(s, rc, now);
        if !CanSaveSesion(st, id, s2) then Step(SaveRejected, st)
        else
          var f := RegisterPrefix(SetSesion(st, id, s2), s.leyes, calls, |s.leyes|);
          Step(Done(f.count), f.st)
  }

  /** `activarSesion`: the session is created on the ledger and saved as active, then each
      listed law is registered in list order; `leyesRegistradas` is the reply. */
  method ActivarSesion(db: Db, id: Id, sessionCall: LedgerResult<SessionReceipt>,
                       calls: nat -> LedgerResult<LawReceipt>, now: Time) returns (reply: Reply<nat>)
    modifies db
    ensures Step(reply, db.State()) == Activar(old(db.State()), id, sessionCall, calls, now)
  {
    if id !in db.sesiones {
      return Refused(NotFound);
    }
    var sesion := db.sesiones[id];
    if sesion.estado != EstadoSesion.Draft {
      return Refused(WrongState);
    }
    if |sesion.leyes| == 0 {
      return Refused(NoLaws);
    }
    var blockchainResult := Wrap(sessionCall);
    if blockchainResult.LedgerErr? {
      return LedgerFailed(blockchainResult.cause);
    }
    var s2 := Activated(sesion, blockchainResult.value, now);
    if !CanSaveSesion(db.State(), id, s2) {
      return SaveRejected;
    }
    db.sesiones := db.sesiones[id := s2];
    ghost var st1 := db.State();
    var leyesRegistradas := 0;
    var i := 0;
    while i < |sesion.leyes|
      invariant 0 <= i <= |sesion.leyes|
      invariant RegisterPrefix(st1, sesion.leyes, calls, i) == Fold(db.State(), leyesRegistradas)
    {
      var leyId := sesion.leyes[i];
      if leyId in db.leyes {
        var r := Wrap(calls(i));
        if r.LedgerOk? {
          var ley2 := Registered(db.leyes[leyId], r.value);
          if CanSaveLey(db.State(), leyId, ley2) {
            db.leyes := db.leyes[leyId := ley2];
            leyesRegistradas := leyesRegistradas + 1;
          }
        }
      }
      i := i + 1;
    }
    reply := Done(leyesRegistradas);
  }

  /** The registration loop touches only laws, and only listed ones: each stays as it was or
      is registered with the receipt of one of its successful ledger calls; the count is at
      most the number of passes. */
  lemma {:induction false} RegisterPrefixFrame(st: DbState, ids: seq<Id>, calls: nat -> LedgerResult<LawReceipt>, n: nat)
    requires n <= |ids|
    ensures var f := RegisterPrefix(st, ids, calls, n);
      && f.st.sesiones == st.sesiones && f.st.users == st.users && f.st.nextId == st.nextId
      && f.st.leyes.Keys == st.leyes.Keys
      && f.count <= n
      && (forall k :: k in st.leyes ==>
            f.st.leyes[k] == st.leyes[k]
            || exists p :: 0 <= p < n && ids[p] == k && calls(p).LedgerOk?
                           && f.st.leyes[k] == Registered(st.leyes[k], calls(p).value))
  {
    if n > 0 {
      RegisterPrefixFrame(st, ids, calls, n - 1);
      var f := RegisterPrefix(st, ids, calls, n - 1);
      var g := RegisterOne(f.st, ids[n - 1], calls(n - 1));
      forall k | k in st.leyes
        ensures g.st.leyes[k] == st.leyes[k]
                || exists p :: 0 <= p < n && ids[p] == k && calls(p).LedgerOk?
                               && g.st.leyes[k] == Registered(st.leyes[k], calls(p).value)
      {
        if g.st.leyes[k] != f.st.leyes[k] {
          assert k == ids[n - 1] && calls(n - 1).LedgerOk?;
          assert g.st.leyes[k] == Registered(f.st.leyes[k], calls(n - 1).value);
          RegisteredOverwrites(st.leyes[k], f.st.leyes[k], calls(n - 1).value);
        } else if f.st.leyes[k] != st.leyes[k] {
          var p :| 0 <= p < n - 1 && ids[p] == k && calls(p).LedgerOk?
                   && f.st.leyes[k] == Registered(st.leyes[k], calls(p).value);
        }
      }
    }
  }

  /** The registration loop changes no session, no user, no law id and not the id counter. */
  lemma {:induction false} RegisterPrefixKeeps(st: DbState, ids: seq<Id>, calls: nat -> LedgerResult<LawReceipt>, n: nat)
    requires n <= |ids|
    ensures var f := RegisterPrefix(st, ids, calls, n);
      f.st.sesiones == st.sesiones && f.st.users == st.users && f.st.nextId == st.nextId && f.st.leyes.Keys == st.leyes.Keys
  {
    if n > 0 {
      RegisterPrefixKeeps(st, ids, calls, n - 1);
    }
  }

  /** Registering twice keeps only the last receipt. */
  lemma RegisteredOverwrites(l: Ley, l1: Ley, rc: LawReceipt)
    requires l1 == l || exists rc0 :: l1 == Registered(l, rc0)
    ensures Registered(l1, rc) == Registered(l, rc)
  {
  }

  /** Activation is refused, with nothing changed, unless the session is a draft with at least
      one law; when the ledger refuses the session it stays a draft (no ledger fields); when it
      accepts and the save admits it, the session becomes active with the ledger's id and hash. */
  lemma ActivarSession(st: DbState, id: Id, sessionCall: LedgerResult<SessionReceipt>,
                       calls: nat -> LedgerResult<LawReceipt>, now: Time)
    ensures var r := Activar(st, id, sessionCall, calls, now);
      && (r.reply.Done? ==>
            && id in st.sesiones && st.sesiones[id].estado == EstadoSesion.Draft && |st.sesiones[id].leyes| > 0
            && sessionCall.LedgerOk?
            && r.st.sesiones == st.sesiones[id := Activated(st.sesiones[id], sessionCall.value, now)]
            && r.st.sesiones[id].estado == Active && r.st.sesiones[id].isOnBlockchain
            && r.st.sesiones[id].blockchainId == Some(sessionCall.value.sesionId)
            && r.st.sesiones[id].transactionHash == Some(sessionCall.value.transactionHash)
            && r.reply.value <= |st.sesiones[id].leyes|)
      && (!r.reply.Done? ==> r.st == st)
      && (sessionCall.LedgerErr? ==> r.st == st)
  {
    if id in st.sesiones && st.sesiones[id].estado == EstadoSesion.Draft && |st.sesiones[id].leyes| > 0 && sessionCall.LedgerOk? {
      var s := st.sesiones[id];
      var s2 := Activated(s, sessionCall.value, now);
      RegisterPrefixFrame(SetSesion(st, id, s2), s.leyes, calls, |s.leyes|);
    }
  }

  /** On a successful activation every law that is not listed is untouched, and a listed law
      whose ledger calls all failed is untouched too (the loop carries on past it); any other
      law is registered for voting with one of its receipts. */
  lemma ActivarLaws(st: DbState, id: Id, sessionCall: LedgerResult<SessionReceipt>,
                    calls: nat -> LedgerResult<LawReceipt>, now: Time, k: Id)
    requires Activar(st, id, sessionCall, calls, now).reply.Done? && k in st.leyes
    ensures var r := Activar(st, id, sessionCall, calls, now);
      var ids := st.sesiones[id].leyes;
      && k in r.st.leyes
      && ((forall p :: 0 <= p < |ids| && ids[p] == k ==> calls(p).LedgerErr?) ==> r.st.leyes[k] == st.leyes[k])
      && (r.st.leyes[k] == st.leyes[k]
          || exists p :: 0 <= p < |ids| && ids[p] == k && calls(p).LedgerOk?
                         && r.st.leyes[k] == Registered(st.leyes[k], calls(p).value)
                         && r.st.leyes[k].estado == Voting)
  {
    var s := st.sesiones[id];
    var s2 := Activated(s, sessionCall.value, now);
    RegisterPrefixFrame(SetSesion(st, id, s2), s.leyes, calls, |s.leyes|);
  }

  /** Pass `p` of the registration loop registers its law: the law is stored, its ledger call
      succeeded and the save admitted the registered law. */
  predicate PassRegisters(st: DbState, ids: seq<Id>, calls: nat -> LedgerResult<LawReceipt>, p: nat)
    requires p < |ids|
  {
    var before := RegisterPrefix(st, ids, calls, p).st;
    && ids[p] in before.leyes && calls(p).LedgerOk?
    && CanSaveLey(before, ids[p], Registered(before.leyes[ids[p]], calls(p).value))
  }

  /** One pass adds one to the count exactly when it registers its law, and then the law
      holds that pass's receipt. */
  lemma PassStep(st: DbState, ids: seq<Id>, calls: nat -> LedgerResult<LawReceipt>, p: nat)
    requires p < |ids|
    ensures var before := RegisterPrefix(st, ids, calls, p);
      var after := RegisterPrefix(st, ids, calls, p + 1);
      && after.count == before.count + (if PassRegisters(st, ids, calls, p) then 1 else 0)
      && (PassRegisters(st, ids, calls, p) ==>
            after.st.leyes[ids[p]] == Registered(before.st.leyes[ids[p]], calls(p).value))
  {
  }

  /** The positions among the first `n` whose pass registered its law. */
  function Passes(st: DbState, ids: seq<Id>, calls: nat -> LedgerResult<LawReceipt>, n: nat): set<nat>
    requires n <= |ids|
  {
    set p: nat | p < n && PassRegisters(st, ids, calls, p)
  }

  /** The positions of the first `n + 1` passes that registered: those of the first `n`, plus
      `n` when its pass registered. */
  lemma PassesGrow(st: DbState, ids: seq<Id>, calls: nat -> LedgerResult<LawReceipt>, n: nat)
    requires n < |ids|
    ensures Passes(st, ids, calls, n + 1)
            == Passes(st, ids, calls, n) + (if PassRegisters(st, ids, calls, n) then {n} else {})
    ensures n !in Passes(st, ids, calls, n)
  {
  }

  /** `leyesRegistradas` counts exactly the passes that registered their law. */
  lemma {:induction false} RegisterCount(st: DbState, ids: seq<Id>, calls: nat -> LedgerResult<LawReceipt>, n: nat)
    requires n <= |ids|
    ensures RegisterPrefix(st, ids, calls, n).count == |Passes(st, ids, calls, n)|
  {
    if n == 0 {
      assert Passes(st, ids, calls, 0) == {};
    } else {
      RegisterCount(st, ids, calls, n - 1);
      PassStep(st, ids, calls, n - 1);
      PassesGrow(st, ids, calls, n - 1);
    }
  }

  /** The reply of a successful activation is the number of listed positions whose pass
      registered its law, counted over the loop that starts from the activated session. */
  lemma ActivarCount(st: DbState, id: Id, sessionCall: LedgerResult<SessionReceipt>,
                     calls: nat -> LedgerResult<LawReceipt>, now: Time)
    requires Activar(st, id, sessionCall, calls, now).reply.Done?
    ensures var s := st.sesiones[id];
      Activar(st, id, sessionCall, calls, now).reply.value
        == |Passes(SetSesion(st, id, Activated(s, sessionCall.value, now)), s.leyes, calls, |s.leyes|)|
  {
    var s := st.sesiones[id];
    RegisterCount(SetSesion(st, id, Activated(s, sessionCall.value, now)), s.leyes, calls, |s.leyes|);
  }

  /** When every ledger call for the laws fails, no law changes and none is counted. */
  lemma {:induction false} RegisterAllFail(st: DbState, ids: seq<Id>, calls: nat -> LedgerResult<LawReceipt>, n: nat)
    requires n <= |ids| && forall p :: 0 <= p < n ==> calls(p).LedgerErr?
    ensures RegisterPrefix(st, ids, calls, n) == Fold(st, 0)
  {
    if n > 0 {
      RegisterAllFail(st, ids, calls, n - 1);
    }
  }

  /** The registration loop keeps the database invariant. */
  lemma {:induction false} RegisterPrefixValid(st: DbState, ids: seq<Id>, calls: nat -> LedgerResult<LawReceipt>, n: nat)
    requires n <= |ids| && Valid(st)
    ensures Valid(RegisterPrefix(st, ids, calls, n).st)
  {
    if n > 0 {
      RegisterPrefixValid(st, ids, calls, n - 1);
      RegisterPrefixKeeps(st, ids, calls, n - 1);
      RegisterOneValid(RegisterPrefix(st, ids, calls, n - 1).st, ids[n - 1], calls(n - 1));
    }
  }

  /** For the laws of an active session the registration loop keeps the lifecycle coherence. */
  lemma RegisterPrefixCoherent(st: DbState, id: Id, ids: seq<Id>,
                                                  calls: nat -> LedgerResult<LawReceipt>, n: nat)
    requires n <= |ids| && Coherent(st)
    requires id in st.sesiones && st.sesiones[id].estado == Active && st.sesiones[id].leyes == ids
    ensures Coherent(RegisterPrefix(st, ids, calls, n).st)
  {
    RegisterPrefixFrame(st, ids, calls, n);
    var f := RegisterPrefix(st, ids, calls, n).st;
    forall k | k in f.leyes
      ensures f.leyes[k].sesion in f.sesiones && StateFits(f.sesiones[f.leyes[k].sesion].estado, f.leyes[k].estado)
    {
      if f.leyes[k] != st.leyes[k] {
        var p :| 0 <= p < n && ids[p] == k && calls(p).LedgerOk? && f.leyes[k] == Registered(st.leyes[k], calls(p).value);
        assert st.sesiones[id].leyes[p] == k;
      } else {
        assert StateFits(st.sesiones[st.leyes[k].sesion].estado, st.leyes[k].estado);
      }
    }
    forall s, i | s in f.sesiones && 0 <= i < |f.sesiones[s].leyes|
      ensures f.sesiones[s].leyes[i] < f.nextId
              && (f.sesiones[s].leyes[i] in f.leyes ==> f.leyes[f.sesiones[s].leyes[i]].sesion == s)
    {
      assert f.sesiones[s].leyes[i] == st.sesiones[s].leyes[i];
    }
  }

  lemma RegisterOneValid(st: DbState, lid: Id, call: LedgerResult<LawReceipt>)
    requires Valid(st)
    ensures Valid(RegisterOne(st, lid, call).st)
  {
    var g := RegisterOne(st, lid, call);
    if g.count == 1 {
      assert lid < st.nextId;
      SetLeyValid(st, lid, g.st.leyes[lid]);
    }
  }

  lemma ActivarPreserves(st: DbState, id: Id, sessionCall: LedgerResult<SessionReceipt>,
                         calls: nat -> LedgerResult<LawReceipt>, now: Time)
    requires Valid(st) && Coherent(st)
    ensures Valid(Activar(st, id, sessionCall, calls, now).st) && Coherent(Activar(st, id, sessionCall, calls, now).st)
  {
    var r := Activar(st, id, sessionCall, calls, now);
    if r.reply.Done? {
      var s := st.sesiones[id];
      var s2 := Activated(s, sessionCall.value, now);
      var st1 := SetSesion(st, id, s2);
      SetSesionValid(st, id, s2);
      assert Coherent(st1) by {
        forall k | k in st1.leyes
          ensures st1.leyes[k].sesion in st1.sesiones
                  && StateFits(st1.sesiones[st1.leyes[k].sesion].estado, st1.leyes[k].estado)
        {
          if st.leyes[k].sesion == id {
            assert StateFits(EstadoSesion.Draft, st.leyes[k].estado);
          }
        }
      }
      RegisterPrefixValid(st1, s.leyes, calls, |s.leyes|);
      RegisterPrefixCoherent(st1, id, s.leyes, calls, |s.leyes|);
    }
  }

  // ---------------------------------------------------------------------------------
  // finalizarSesion

  /** A law's outcome on finish: approved (dated) with more votes for than against, else
      rejected. */
  function Resolve(l: Ley, now: Time): Ley
  {
    if EstaAprobada(l) then l.(estado := Approved, fechaAprobacion := Some(now)) else l.(estado := Rejected)
  }

  function ResolveAll(leyes: map<Id, Ley>, id: Id, now: Time): map<Id, Ley>
  {
    map k | k in leyes :: if leyes[k].sesion == id then Resolve(leyes[k], now) else leyes[k]
  }

  function Finalizar(st: DbState, id: Id, call: LedgerResult<Receipt>, now: Time): Step<nat>
  {
    if id !in st.sesiones then Step(Refused(NotFound), st)
    else if st.sesiones[id].estado != Active then Step(Refused(WrongState), st)
    else
      var s := st.sesiones[id];
      if s.isOnBlockchain && Wrap(call).LedgerErr? then Step(LedgerFailed(Wrap(call).cause), st)
      else
        var s2 := s.(estado := Finished, fechaFin := Some(now));
        if !CanSaveSesion(st, id, s2) then Step(SaveRejected, st)
        else Step(Done(|LawsOf(st, id)|), st.(sesiones := st.sesiones[id := s2], leyes := ResolveAll(st.leyes, id, now)))
  }

  /** `finalizarSesion`: closes the session on the ledger when it is registered there (a
      missing ledger id is `undefined`, which the guard does not treat as `null`), saves it as
      finished, then resolves every law whose `sesion` is this one. */
  method FinalizarSesion(db: Db, id: Id, call: LedgerResult<Receipt>, now: Time) returns (reply: Reply<nat>)
    modifies db
    ensures Step(reply, db.State()) == Finalizar(old(db.State()), id, call, now)
  {
    if id !in db.sesiones {
      return Refused(NotFound);
    }
    var sesion := db.sesiones[id];
    if sesion.estado != Active {
      return Refused(WrongState);
    }
    if sesion.isOnBlockchain {
      var r := Wrap(call);
      if r.LedgerErr? {
        return LedgerFailed(r.cause);
      }
    }
    var s2 := sesion.(estado := Finished, fechaFin := Some(now));
    if !CanSaveSesion(db.State(), id, s2) {
      return SaveRejected;
    }
    db.sesiones := db.sesiones[id := s2];
    var leyes := LawsOf(db.State(), id);
    ghost var l0 := db.leyes;
    var remaining := leyes;
    while remaining != {}
      invariant remaining <= leyes
      invariant db.sesiones == old(db.sesiones)[id := s2] && db.users == old(db.users) && db.nextId == old(db.nextId)
      invariant db.leyes.Keys == l0.Keys
      invariant forall k :: k in l0 ==>
        db.leyes[k] == if k in leyes && k !in remaining then Resolve(l0[k], now) else l0[k]
      decreases |remaining|
    {
      var k :| k in remaining;
      db.leyes := db.leyes[k := Resolve(db.leyes[k], now)];
      remaining := remaining - {k};
    }
    assert db.leyes == ResolveAll(l0, id, now);
    reply := Done(|leyes|);
  }

  /** Finishing is refused unless the session is active; when the session is on the ledger and
      the ledger refuses, nothing changes (it stays active). Otherwise every law of the session,
      whatever its state, is approved exactly when it has more votes for than against, and no
      other law changes. */
  lemma FinalizarEffect(st: DbState, id: Id, call: LedgerResult<Receipt>, now: Time)
    ensures var r := Finalizar(st, id, call, now);
      && (r.reply.Done? ==>
            && id in st.sesiones && st.sesiones[id].estado == Active
            && (st.sesiones[id].isOnBlockchain ==> call.LedgerOk?)
            && r.st.sesiones == st.sesiones[id := st.sesiones[id].(estado := Finished, fechaFin := Some(now))]
            && r.st.leyes.Keys == st.leyes.Keys
            && r.reply.value == |LawsOf(st, id)|
            && (forall k :: k in st.leyes && st.leyes[k].sesion == id ==>
                  && (r.st.leyes[k].estado == Approved <==> st.leyes[k].conteo.votosAFavor > st.leyes[k].conteo.votosEnContra)
                  && (r.st.leyes[k].estado == Approved || r.st.leyes[k].estado == Rejected)
                  && r.st.leyes[k].votos == st.leyes[k].votos && r.st.leyes[k].conteo == st.leyes[k].conteo)
            && (forall k :: k in st.leyes && st.leyes[k].sesion != id ==> r.st.leyes[k] == st.leyes[k]))
      && (!r.reply.Done? ==> r.st == st)
  {
  }

  /** Resolving keeps each law's ids, session and schema, and leaves the session's laws
      approved or rejected and every other law as it was. */
  lemma ResolveAllFacts(st: DbState, id: Id, now: Time)
    requires Valid(st)
    ensures var leyes2 := ResolveAll(st.leyes, id, now);
      && leyes2.Keys == st.leyes.Keys
      && forall k :: k in st.leyes ==>
        && leyes2[k].blockchainId == st.leyes[k].blockchainId && leyes2[k].sesion == st.leyes[k].sesion
        && LeyModel.SchemaValid(leyes2[k])
        && (st.leyes[k].sesion == id ==> StateFits(Finished, leyes2[k].estado))
        && (st.leyes[k].sesion != id ==> leyes2[k].estado == st.leyes[k].estado)
  {
    forall k | k in st.leyes ensures LeyModel.SchemaValid(st.leyes[k]) {
      assert CanSaveLey(st, k, st.leyes[k]);
    }
  }

  lemma FinalizarPreserves(st: DbState, id: Id, call: LedgerResult<Receipt>, now: Time)
    requires Valid(st) && Coherent(st)
    ensures Valid(Finalizar(st, id, call, now).st) && Coherent(Finalizar(st, id, call, now).st)
  {
    var r := Finalizar(st, id, call, now);
    if r.reply.Done? {
      var s2 := st.sesiones[id].(estado := Finished, fechaFin := Some(now));
      ResolveAllFacts(st, id, now);
      TransitionValid(st, id, s2, ResolveAll(st.leyes, id, now));
      TransitionCoherent(st, id, s2, ResolveAll(st.leyes, id, now));
    }
  }

  // ---------------------------------------------------------------------------------
  // cancelarSesion

  function Cancelar(st: DbState, id: Id): Step<()>
  {
    if id !in st.sesiones then Step(Refused(NotFound), st)
    else if Closed(st.sesiones[id].estado) then Step(Refused(WrongState), st)
    else
      var s2 := st.sesiones[id].(estado := EstadoSesion.Cancelled);
      if !CanSaveSesion(st, id, s2) then Step(SaveRejected, st)
      else Step(Done(()), st.(sesiones := st.sesiones[id := s2], leyes := CancelAll(st.leyes, id)))
  }

  /** `Ley.updateMany({ sesion }, { estado: 'cancelled' })`. */
  function CancelAll(leyes: map<Id, Ley>, id: Id): map<Id, Ley>
  {
    map k | k in leyes :: if leyes[k].sesion == id then leyes[k].(estado := EstadoLey.Cancelled) else leyes[k]
  }

  /** `cancelarSesion`: saves the session as cancelled, then `Ley.updateMany` cancels its laws. */
  method CancelarSesion(db: Db, id: Id) returns (reply: Reply<()>)
    modifies db
    ensures Step(reply, db.State()) == Cancelar(old(db.State()), id)
  {
    if id !in db.sesiones {
      return Refused(NotFound);
    }
    var sesion := db.sesiones[id];
    if Closed(sesion.estado) {
      return Refused(WrongState);
    }
    var s2 := sesion.(estado := EstadoSesion.Cancelled);
    if !CanSaveSesion(db.State(), id, s2) {
      return SaveRejected;
    }
    db.sesiones := db.sesiones[id := s2];
    db.leyes := CancelAll(db.leyes, id);
    reply := Done(());
  }

  /** Cancelling is refused for finished and cancelled sessions, so a second cancel is refused;
      otherwise the session and every one of its laws are cancelled. */
  lemma CancelarEffect(st: DbState, id: Id)
    requires Valid(st) && id in st.sesiones
    ensures var r := Cancelar(st, id);
      && (r.reply.Done? <==> !Closed(st.sesiones[id].estado))
      && (r.reply.Done? ==>
            && r.st.sesiones[id].estado == EstadoSesion.Cancelled
            && (forall k :: k in r.st.leyes && r.st.leyes[k].sesion == id ==> r.st.leyes[k].estado == EstadoLey.Cancelled)
            && (forall k :: k in st.leyes && st.leyes[k].sesion != id ==> r.st.leyes[k] == st.leyes[k])
            && Cancelar(r.st, id) == Step(Refused(WrongState), r.st))
      && (!r.reply.Done? ==> r.st == st)
  {
    if !Closed(st.sesiones[id].estado) {
      ResaveSesionAdmitted(st, id, st.sesiones[id].(estado := EstadoSesion.Cancelled));
    }
  }

  /** Cancelling keeps each law's ids, session and schema, cancels the session's laws and
      leaves every other law as it was. */
  lemma CancelAllFacts(st: DbState, id: Id)
    requires Valid(st)
    ensures var leyes2 := CancelAll(st.leyes, id);
      && leyes2.Keys == st.leyes.Keys
      && forall k :: k in st.leyes ==>
        && leyes2[k].blockchainId == st.leyes[k].blockchainId && leyes2[k].sesion == st.leyes[k].sesion
        && LeyModel.SchemaValid(leyes2[k])
        && (st.leyes[k].sesion == id ==> StateFits(EstadoSesion.Cancelled, leyes2[k].estado))
        && (st.leyes[k].sesion != id ==> leyes2[k].estado == st.leyes[k].estado)
  {
    forall k | k in st.leyes ensures LeyModel.SchemaValid(st.leyes[k]) {
      assert CanSaveLey(st, k, st.leyes[k]);
    }
  }

  lemma CancelarPreserves(st: DbState, id: Id)
    requires Valid(st) && Coherent(st)
    ensures Valid(Cancelar(st, id).st) && Coherent(Cancelar(st, id).st)
  {
    var r := Cancelar(st, id);
    if r.reply.Done? {
      var s2 := st.sesiones[id].(estado := EstadoSesion.Cancelled);
      CancelAllFacts(st, id);
      TransitionValid(st, id, s2, CancelAll(st.leyes, id));
      TransitionCoherent(st, id, s2, CancelAll(st.leyes, id));
    }
  }

  // ---------------------------------------------------------------------------------
  // sincronizarConBlockchain

  /** One entry of `syncResults`. */
  datatype SyncEntry = Synced(updated: bool, resultados: Resultados) | SyncError(message: string)

  /** Whether any of the four ledger-kept counters differs from the ledger. */
  predicate NeedsUpdate(c: Conteo, r: Resultados)
  {
    c.votosAFavor != r.votosAFavor || c.votosEnContra != r.votosEnContra
    || c.abstenciones != r.abstenciones || c.ausentes != r.ausentes
  }

  /** The ledger wins: the four counters take the ledger's values; `presentes` is kept. */
  function Overwrite(c: Conteo, r: Resultados): Conteo
  {
    c.(votosAFavor := r.votosAFavor, votosEnContra := r.votosEnContra,
       abstenciones := r.abstenciones, ausentes := r.ausentes)
  }

  /** The counters of a law after the sync, given the ledger's answer. */
  function SyncedLey(l: Ley, answer: LedgerResult<Resultados>): Ley
  {
    match answer
    case LedgerOk(r) => if NeedsUpdate(l.conteo, r) then l.(conteo := Overwrite(l.conteo, r)) else l
    case LedgerErr(_) => l
  }

  function EntryOf(l: Ley, answer: LedgerResult<Resultados>): SyncEntry
  {
    match answer
    case LedgerOk(r) => Synced(NeedsUpdate(l.conteo, r), r)
    case LedgerErr(m) => SyncError(m)
  }

  /** The laws the sync visits: those of the session marked as on the ledger (a missing ledger
      id is `undefined`, which the guard does not treat as `null`). */
  function SyncTargets(st: DbState, id: Id): (r: set<Id>)
    ensures forall k :: k in r <==> k in st.leyes && st.leyes[k].sesion == id && st.leyes[k].isOnBlockchain
  {
    set k | k in st.leyes && st.leyes[k].sesion == id && st.leyes[k].isOnBlockchain
  }

  /** The ledger's answer for law `k` of session `id`, by their ledger ids. */
  function Answer(st: DbState, id: Id, fetch: (Option<int>, Option<int>) -> LedgerResult<Resultados>, k: Id): LedgerResult<Resultados>
    requires id in st.sesiones && k in st.leyes
  {
    ObtenerResultadosLey(fetch(st.sesiones[id].blockchainId, st.leyes[k].blockchainId))
  }

  /** `syncResults`: one entry per visited law. */
  function SyncReport(st: DbState, id: Id, fetch: (Option<int>, Option<int>) -> LedgerResult<Resultados>): map<Id, SyncEntry>
    requires id in st.sesiones
  {
    map k | k in SyncTargets(st, id) :: EntryOf(st.leyes[k], Answer(st, id, fetch, k))
  }

  /** The laws after the sync. */
  function SyncLaws(st: DbState, id: Id, fetch: (Option<int>, Option<int>) -> LedgerResult<Resultados>): map<Id, Ley>
    requires id in st.sesiones
  {
    map k | k in st.leyes :: if k in SyncTargets(st, id) then SyncedLey(st.leyes[k], Answer(st, id, fetch, k)) else st.leyes[k]
  }

  function Sincronizar(st: DbState, id: Id, fetch: (Option<int>, Option<int>) -> LedgerResult<Resultados>): Step<map<Id, SyncEntry>>
  {
    if id !in st.sesiones then Step(Refused(NotFound), st)
    else if !st.sesiones[id].isOnBlockchain then Step(Refused(NotOnLedger), st)
    else Step(Done(SyncReport(st, id, fetch)), st.(leyes := SyncLaws(st, id, fetch)))
  }

  /** `sincronizarConBlockchain`: for each law of the session on the ledger, reads the ledger's
      counters, overwrites the local ones when any differs, and records an entry; a failed read
      is recorded and the loop goes on. `fetch` answers for a pair of ledger ids. */
  method SincronizarConBlockchain(db: Db, id: Id, fetch: (Option<int>, Option<int>) -> LedgerResult<Resultados>)
    returns (reply: Reply<map<Id, SyncEntry>>)
    modifies db
    ensures Step(reply, db.State()) == Sincronizar(old(db.State()), id, fetch)
  {
    if id !in db.sesiones {
      return Refused(NotFound);
    }
    var sesion := db.sesiones[id];
    if !sesion.isOnBlockchain {
      return Refused(NotOnLedger);
    }
    ghost var st0 := db.State();
    var leyes := LawsOf(db.State(), id);
    var syncResults: map<Id, SyncEntry> := map[];
    var remaining := leyes;
    assert leyes - remaining == {};
    SyncSoFarStart(st0, id, fetch);
    while remaining != {}
      invariant remaining <= leyes
      invariant db.sesiones == st0.sesiones && db.users == st0.users && db.nextId == st0.nextId
      invariant db.leyes == LawsSyncedSoFar(st0, id, fetch, leyes - remaining)
      invariant syncResults == ReportSoFar(st0, id, fetch, leyes - remaining)
      decreases |remaining|
    {
      var k :| k in remaining;
      ghost var visited := leyes - remaining;
      SyncSoFarStep(st0, id, fetch, visited, k);
      var entry := SyncLey(db, k, sesion.blockchainId, fetch);
      if entry.Some? {
        syncResults := syncResults[k := entry.value];
      }
      assert leyes - (remaining - {k}) == visited + {k};
      remaining := remaining - {k};
    }
    assert leyes - remaining == LawsOf(st0, id);
    SyncSoFarDone(st0, id, fetch);
    reply := Done(syncResults);
  }

  /** One pass of the sync loop: a law on the ledger gets the ledger's counters when any
      differs, and the pass yields its entry; a law off the ledger is skipped. */
  method SyncLey(db: Db, k: Id, bid: Option<int>, fetch: (Option<int>, Option<int>) -> LedgerResult<Resultados>)
    returns (entry: Option<SyncEntry>)
    requires k in db.leyes
    modifies db
    ensures db.sesiones == old(db.sesiones) && db.users == old(db.users) && db.nextId == old(db.nextId)
    ensures var ley := old(db.leyes[k]);
      var answer := ObtenerResultadosLey(fetch(bid, ley.blockchainId));
      && (entry.Some? <==> ley.isOnBlockchain)
      && (entry.Some? ==> entry.value == EntryOf(ley, answer))
      && db.leyes == old(db.leyes)[k := if ley.isOnBlockchain then SyncedLey(ley, answer) else ley]
  {
    var ley := db.leyes[k];
    entry := None;
    if ley.isOnBlockchain {
      var resultados := ObtenerResultadosLey(fetch(bid, ley.blockchainId));
      if resultados.LedgerOk? {
        var needsUpdate := NeedsUpdate(ley.conteo, resultados.value);
        if needsUpdate {
          db.leyes := db.leyes[k := ley.(conteo := Overwrite(ley.conteo, resultados.value))];
        }
        entry := Some(Synced(needsUpdate, resultados.value));
      } else {
        entry := Some(SyncError(resultados.cause));
      }
    }
  }

  /** The laws once the sync loop has visited `visited`. */
  ghost function LawsSyncedSoFar(st0: DbState, id: Id, fetch: (Option<int>, Option<int>) -> LedgerResult<Resultados>,
                                 visited: set<Id>): map<Id, Ley>
    requires id in st0.sesiones
  {
    map k | k in st0.leyes :: if k in visited && k in SyncTargets(st0, id) then SyncedLey(st0.leyes[k], Answer(st0, id, fetch, k)) else st0.leyes[k]
  }

  /** `syncResults` once the sync loop has visited `visited`. */
  ghost function ReportSoFar(st0: DbState, id: Id, fetch: (Option<int>, Option<int>) -> LedgerResult<Resultados>,
                             visited: set<Id>): map<Id, SyncEntry>
    requires id in st0.sesiones
  {
    map k | k in visited && k in SyncTargets(st0, id) :: EntryOf(st0.leyes[k], Answer(st0, id, fetch, k))
  }

  /** Visiting one more law adds its entry and its synced counters when it is a target. */
  lemma SyncSoFarStep(st0: DbState, id: Id, fetch: (Option<int>, Option<int>) -> LedgerResult<Resultados>,
                      visited: set<Id>, k: Id)
    requires id in st0.sesiones && k in LawsOf(st0, id) && k !in visited
    ensures k in SyncTargets(st0, id) <==> st0.leyes[k].isOnBlockchain
    ensures LawsSyncedSoFar(st0, id, fetch, visited)[k] == st0.leyes[k]
    ensures LawsSyncedSoFar(st0, id, fetch, visited + {k}) ==
      LawsSyncedSoFar(st0, id, fetch, visited)[k := if st0.leyes[k].isOnBlockchain
                                                    then SyncedLey(st0.leyes[k], Answer(st0, id, fetch, k))
                                                    else st0.leyes[k]]
    ensures ReportSoFar(st0, id, fetch, visited + {k}) ==
      if k in SyncTargets(st0, id)
      then ReportSoFar(st0, id, fetch, visited)[k := EntryOf(st0.leyes[k], Answer(st0, id, fetch, k))]
      else ReportSoFar(st0, id, fetch, visited)
  {
  }

  /** Before the first visit nothing has changed and nothing is reported. */
  lemma SyncSoFarStart(st0: DbState, id: Id, fetch: (Option<int>, Option<int>) -> LedgerResult<Resultados>)
    requires id in st0.sesiones
    ensures LawsSyncedSoFar(st0, id, fetch, {}) == st0.leyes && ReportSoFar(st0, id, fetch, {}) == map[]
  {
  }

  /** Once every law of the session is visited, the loop has built the specification's answer. */
  lemma SyncSoFarDone(st0: DbState, id: Id, fetch: (Option<int>, Option<int>) -> LedgerResult<Resultados>)
    requires id in st0.sesiones && st0.sesiones[id].isOnBlockchain
    ensures Sincronizar(st0, id, fetch) ==
      Step(Done(ReportSoFar(st0, id, fetch, LawsOf(st0, id))), st0.(leyes := LawsSyncedSoFar(st0, id, fetch, LawsOf(st0, id))))
  {
    assert ReportSoFar(st0, id, fetch, LawsOf(st0, id)) == SyncReport(st0, id, fetch);
    assert LawsSyncedSoFar(st0, id, fetch, LawsOf(st0, id)) == SyncLaws(st0, id, fetch);
  }

  /** The sync is refused unless the session is on the ledger; it changes only the four
      ledger-kept counters of the session's ledger laws, to the ledger's values, and reports
      `updated` exactly when one of them differed; a failed read is reported with its prefixed
      cause and leaves that law as it was. */
  lemma SincronizarEffect(st: DbState, id: Id, fetch: (Option<int>, Option<int>) -> LedgerResult<Resultados>, k: Id)
    requires k in st.leyes
    ensures var r := Sincronizar(st, id, fetch);
      && r.st.sesiones == st.sesiones && r.st.users == st.users && r.st.leyes.Keys == st.leyes.Keys
      && (r.reply.Done? <==> id in st.sesiones && st.sesiones[id].isOnBlockchain)
      && r.st.leyes[k] == st.leyes[k].(conteo := r.st.leyes[k].conteo)
      && r.st.leyes[k].conteo.presentes == st.leyes[k].conteo.presentes
      && (r.reply.Done? ==>
            var answer := fetch(st.sesiones[id].blockchainId, st.leyes[k].blockchainId);
            && (k in r.reply.value <==> st.leyes[k].sesion == id && st.leyes[k].isOnBlockchain)
            && (k in r.reply.value && answer.LedgerOk? ==>
                  && r.reply.value[k] == Synced(NeedsUpdate(st.leyes[k].conteo, answer.value), answer.value)
                  && r.st.leyes[k].conteo == Overwrite(st.leyes[k].conteo, answer.value))
            && (k in r.reply.value && answer.LedgerErr? ==>
                  && r.reply.value[k] == SyncError(BLOCKCHAIN_ERROR_PREFIX + answer.cause)
                  && r.st.leyes[k] == st.leyes[k]))
      && (!(r.reply.Done? && k in r.reply.value) ==> r.st.leyes[k] == st.leyes[k])
  {
  }

  /** A second sync against the same ledger answers reports no update and changes nothing. */
  lemma SincronizarIdempotent(st: DbState, id: Id, fetch: (Option<int>, Option<int>) -> LedgerResult<Resultados>)
    ensures var r1 := Sincronizar(st, id, fetch);
      var r2 := Sincronizar(r1.st, id, fetch);
      && r2.st == r1.st
      && (r2.reply.Done? ==> forall k :: k in r2.reply.value && r2.reply.value[k].Synced? ==> !r2.reply.value[k].updated)
  {
    var r1 := Sincronizar(st, id, fetch);
    var r2 := Sincronizar(r1.st, id, fetch);
    if id in st.sesiones && st.sesiones[id].isOnBlockchain {
      assert SyncTargets(r1.st, id) == SyncTargets(st, id);
      forall k | k in r1.st.leyes
        ensures r2.st.leyes[k] == r1.st.leyes[k]
      {
      }
    }
  }

  /** The sync can break the agreement between counters and records that casting keeps: a law
      with one vote in favour, whose ledger reports none, ends with a zero counter and one
      record in favour. */
  lemma SincronizarCanBreakAgreement(l: Ley)
    requires l.votos == [VoteRecord(0, A_FAVOR, 0, None)] && TallyConsistent(l)
    ensures !TallyConsistent(SyncedLey(l, LedgerOk(Resultados(0, 0, 0, 0))))
  {
    assert CountOf(l.votos, A_FAVOR) == 1;
  }

  lemma SincronizarPreserves(st: DbState, id: Id, fetch: (Option<int>, Option<int>) -> LedgerResult<Resultados>)
    requires Valid(st) && Coherent(st)
    ensures Valid(Sincronizar(st, id, fetch).st) && Coherent(Sincronizar(st, id, fetch).st)
  {
    var r := Sincronizar(st, id, fetch);
    if r.reply.Done? {
      var s := st.sesiones[id];
      forall k | k in st.leyes ensures LeyModel.SchemaValid(r.st.leyes[k]) {
        assert CanSaveLey(st, k, st.leyes[k]);
      }
      assert CanSaveSesion(st, id, s);
      assert st.sesiones[id := s] == st.sesiones;
      TransitionValid(st, id, s, r.st.leyes);
      TransitionCoherent(st, id, s, r.st.leyes);
    }
  }
}
