/** The session record (`Sesion`): schema, defaults, save-time validation and the
    `cantidadLeyes` virtual. */
module SesionModel {
  import opened Base

  datatype EstadoSesion = Draft | Active | Finished | Cancelled

  datatype TipoVotacion = Simple | Calificada

  function ParseTipoVotacion(s: string): (r: Option<TipoVotacion>)
    ensures r == Some(Simple) <==> s == "simple"
    ensures r == Some(Calificada) <==> s == "calificada"
  {
    if s == "simple" then Some(Simple)
    else if s == "calificada" then Some(Calificada)
    else None
  }

  datatype Sesion = Sesion(
    blockchainId: Option<int>,
    titulo: string,
    descripcion: string,
    fecha: string,
    estado: EstadoSesion,
    isOnBlockchain: bool,
    transactionHash: Option<string>,
    leyes: seq<Id>,
    creadoPor: Id,
    fechaCreacion: Time,
    fechaInicio: Option<Time>,
    fechaFin: Option<Time>,
    tipoVotacion: TipoVotacion,
    quorumRequerido: int)

  const MAX_TITULO: nat := 200
  const MAX_DESCRIPCION: nat := 1000
  const QUORUM_MIN: int := 1
  const QUORUM_MAX: int := 100
  const QUORUM_DEFAULT: int := 50

  /** The validators Mongoose runs when a session is saved. */
  predicate SchemaValid(s: Sesion)
  {
    && 0 < |s.titulo| <= MAX_TITULO
    && 0 < |s.descripcion| <= MAX_DESCRIPCION
    && |s.fecha| > 0
    && OptTxHash(s.transactionHash)
    && QUORUM_MIN <= s.quorumRequerido <= QUORUM_MAX
  }

  /** A fresh session record: draft, off the ledger, no laws. */
  function NewSesion(titulo: string, descripcion: string, fecha: string, creadoPor: Id,
                     tipo: TipoVotacion, quorum: int, now: Time): (s: Sesion)
    ensures s.estado == Draft && !s.isOnBlockchain && s.blockchainId.None? && s.transactionHash.None?
    ensures s.leyes == [] && s.tipoVotacion == tipo && s.quorumRequerido == quorum
    ensures s.fechaInicio.None? && s.fechaFin.None?
  {
    Sesion(None, titulo, descripcion, fecha, Draft, false, None, [], creadoPor, now, None, None, tipo, quorum)
  }

  /** The `cantidadLeyes` virtual: the number of listed laws (an absent list counts as empty). */
  function CantidadLeyes(s: Sesion): (n: nat)
    ensures n == 0 <==> s.leyes == []
    ensures n == |s.leyes|
  {
    |s.leyes|
  }

  /** A session fresh from `NewSesion` passes the schema exactly when its texts are non-empty
      and within bounds and its quorum lies in 1..100; the default quorum always passes. */
  lemma NewSesionValid(titulo: string, descripcion: string, fecha: string, creadoPor: Id,
                       tipo: TipoVotacion, quorum: int, now: Time)
    ensures SchemaValid(NewSesion(titulo, descripcion, fecha, creadoPor, tipo, quorum, now))
            <==> (0 < |titulo| <= MAX_TITULO && 0 < |descripcion| <= MAX_DESCRIPCION && |fecha| > 0
                  && 1 <= quorum <= 100)
    ensures 0 < |titulo| <= MAX_TITULO && 0 < |descripcion| <= MAX_DESCRIPCION && |fecha| > 0
            ==> SchemaValid(NewSesion(titulo, descripcion, fecha, creadoPor, tipo, QUORUM_DEFAULT, now))
  {
  }
}
