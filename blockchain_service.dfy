/** The ledger adapter seen from the core: the vote-value table between names and
    contract numbers, and the failure contract of the ledger calls. Signing, gas,
    RPC and event parsing are outside the model; a ledger call is represented by
    its outcome. */
module BlockchainService {
  import opened Base

  /** The five vote values of a law's vote record. */
  datatype VoteValue = AUSENTE | PRESENTE | A_FAVOR | EN_CONTRA | ABSTENCION

  function Name(v: VoteValue): string
  {
    match v
    case AUSENTE => "AUSENTE"
    case PRESENTE => "PRESENTE"
    case A_FAVOR => "A_FAVOR"
    case EN_CONTRA => "EN_CONTRA"
    case ABSTENCION => "ABSTENCION"
  }

  /** The schema's enum check on a vote record's `voto`: the value named by `s`, if any. */
  function ParseVote(s: string): (r: Option<VoteValue>)
    ensures r.Some? ==> Name(r.value) == s
    ensures r.None? ==> forall v :: Name(v) != s
  {
    if s == "AUSENTE" then Some(AUSENTE)
    else if s == "PRESENTE" then Some(PRESENTE)
    else if s == "A_FAVOR" then Some(A_FAVOR)
    else if s == "EN_CONTRA" then Some(EN_CONTRA)
    else if s == "ABSTENCION" then Some(ABSTENCION)
    else None
  }

  /** `mapearEstadoVoto`: the contract's number for a vote name; any other string maps to 0. */
  function MapearEstadoVoto(s: string): (n: int)
    ensures 0 <= n <= 4
    ensures ParseVote(s).None? ==> n == 0
  {
    if s == "AUSENTE" then 0
    else if s == "PRESENTE" then 1
    else if s == "A_FAVOR" then 2
    else if s == "EN_CONTRA" then 3
    else if s == "ABSTENCION" then 4
    else 0
  }

  /** `mapearEstadoVotoInverso`: the name for a contract number; any other number names AUSENTE. */
  function MapearEstadoVotoInverso(n: int): (s: string)
    ensures ParseVote(s).Some?
    ensures !(0 <= n <= 4) ==> s == "AUSENTE"
  {
    if n == 0 then "AUSENTE"
    else if n == 1 then "PRESENTE"
    else if n == 2 then "A_FAVOR"
    else if n == 3 then "EN_CONTRA"
    else if n == 4 then "ABSTENCION"
    else "AUSENTE"
  }

  /** Decoding the encoding of each of the five names gives the name back. */
  lemma DecodeEncode(v: VoteValue)
    ensures MapearEstadoVotoInverso(MapearEstadoVoto(Name(v))) == Name(v)
  {
    match v
    case AUSENTE =>
    case PRESENTE =>
    case A_FAVOR =>
    case EN_CONTRA =>
    case ABSTENCION =>
  }

  /** Encoding the decoding of each contract number 0..4 gives the number back. */
  lemma EncodeDecode(n: int)
    requires 0 <= n <= 4
    ensures MapearEstadoVoto(MapearEstadoVotoInverso(n)) == n
  {
  }

  /** The encoding separates the five names: distinct values get distinct numbers. */
  lemma EncodeInjective(v: VoteValue, w: VoteValue)
    ensures MapearEstadoVoto(Name(v)) == MapearEstadoVoto(Name(w)) ==> v == w
  {
    DecodeEncode(v);
    DecodeEncode(w);
    if MapearEstadoVoto(Name(v)) == MapearEstadoVoto(Name(w)) {
      assert Name(v) == Name(w);
      NameInjective(v, w);
    }
  }

  lemma NameInjective(v: VoteValue, w: VoteValue)
    requires Name(v) == Name(w)
    ensures v == w
  {
    assert ParseVote(Name(v)) == Some(v) by { ParseName(v); }
    assert ParseVote(Name(w)) == Some(w) by { ParseName(w); }
  }

  lemma ParseName(v: VoteValue)
    ensures ParseVote(Name(v)) == Some(v)
  {
    match v
    case AUSENTE =>
    case PRESENTE =>
    case A_FAVOR =>
    case EN_CONTRA =>
    case ABSTENCION =>
  }

  /** The round trip through the contract number returns a string exactly when it is one of
      the five names; every other string comes back as AUSENTE. */
  lemma RoundTripOnlyForNames(s: string)
    ensures MapearEstadoVotoInverso(MapearEstadoVoto(s)) == s <==> ParseVote(s).Some?
    ensures ParseVote(s).None? ==> MapearEstadoVotoInverso(MapearEstadoVoto(s)) == "AUSENTE"
  {
    if ParseVote(s).Some? {
      DecodeEncode(ParseVote(s).value);
    }
  }

  // ---------------------------------------------------------------------------------
  // The ledger interface

  /** The outcome of one ledger call: its result, or the error it raised. */
  datatype LedgerResult<+T> = LedgerOk(value: T) | LedgerErr(cause: string)

  /** What a transaction returns: its hash. */
  datatype Receipt = Receipt(transactionHash: string)

  /** `crearSesion`: the hash and the session number read from the contract's event. */
  datatype SessionReceipt = SessionReceipt(transactionHash: string, sesionId: int)

  /** `agregarLey`: the hash and the law number read from the contract's event. */
  datatype LawReceipt = LawReceipt(transactionHash: string, leyId: int)

  /** The four counters the contract keeps for a law (`obtenerResultadosLey`). */
  datatype Resultados = Resultados(votosAFavor: nat, votosEnContra: nat, abstenciones: nat, ausentes: nat)

  const BLOCKCHAIN_ERROR_PREFIX: string := "Error en blockchain: "

  /** The adapter's error translation shared by every state-changing call and by
      `obtenerResultadosLey`: a ledger error is re-raised with its cause prefixed. */
  function Wrap<T>(call: LedgerResult<T>): (r: LedgerResult<T>)
    ensures r.LedgerOk? <==> call.LedgerOk?
    ensures call.LedgerOk? ==> r == call
    ensures r.LedgerErr? ==>
      StartsWith(r.cause, BLOCKCHAIN_ERROR_PREFIX) && r.cause[|BLOCKCHAIN_ERROR_PREFIX|..] == call.cause
  {
    match call
    case LedgerOk(v) => LedgerOk(v)
    case LedgerErr(m) => LedgerErr(BLOCKCHAIN_ERROR_PREFIX + m)
  }

  /** `obtenerResultadosLey`: four counters, or a failure whose message carries the prefix. */
  function ObtenerResultadosLey(call: LedgerResult<Resultados>): (r: LedgerResult<Resultados>)
    ensures r.LedgerOk? ==> call == r
    ensures r.LedgerErr? ==> call.LedgerErr? && r.cause == BLOCKCHAIN_ERROR_PREFIX + call.cause
  {
    Wrap(call)
  }

  /** `verificarLegislador`: never fails; a ledger error reads as "not registered". */
  function VerificarLegislador(call: LedgerResult<bool>): (r: bool)
    ensures r <==> call == LedgerOk(true)
  {
    match call
    case LedgerOk(b) => b
    case LedgerErr(_) => false
  }

  /** Every message the adapter raises contains the text the error handler classifies as a
      ledger error. */
  lemma WrappedErrorIsClassified<T>(call: LedgerResult<T>)
    requires call.LedgerErr?
    ensures Includes(Wrap(call).cause, "Error en blockchain")
  {
    var m := call.cause;
    assert BLOCKCHAIN_ERROR_PREFIX + m == "" + "Error en blockchain" + (": " + m);
    IncludesAppend("", "Error en blockchain", ": " + m);
  }
}
