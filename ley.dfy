/** The law record (`Ley`): schema, defaults, save-time validation, the `totalVotos`
    virtual, `estaAprobada`, `obtenerVotoLegislador`, and the record counts behind the
    counter/record agreement that vote casting maintains. */
module LeyModel {
  import opened Base
  import opened BlockchainService

  datatype EstadoLey = Draft | Voting | Approved | Rejected | Cancelled

  datatype Categoria = Economica | Social | Educacion | Salud | Seguridad | Ambiental | Otra

  function ParseCategoria(s: string): (r: Option<Categoria>)
  {
    if s == "economica" then Some(Economica)
    else if s == "social" then Some(Social)
    else if s == "educacion" then Some(Educacion)
    else if s == "salud" then Some(Salud)
    else if s == "seguridad" then Some(Seguridad)
    else if s == "ambiental" then Some(Ambiental)
    else if s == "otra" then Some(Otra)
    else None
  }

  /** One legislator's vote on the law. */
  datatype VoteRecord = VoteRecord(legislador: Id, voto: VoteValue, fecha: Time, transactionHash: Option<string>)

  /** The five counters, kept as unbounded integers: `min: 0` is checked when the record is saved. */
  datatype Conteo = Conteo(votosAFavor: int, votosEnContra: int, abstenciones: int, ausentes: int, presentes: int)

  const CONTEO_INICIAL: Conteo := Conteo(0, 0, 0, 0, 0)

  datatype Ley = Ley(
    blockchainId: Option<int>,
    titulo: string,
    descripcion: string,
    categoria: Categoria,
    sesion: Id,
    estado: EstadoLey,
    isOnBlockchain: bool,
    transactionHash: Option<string>,
    conteo: Conteo,
    votos: seq<VoteRecord>,
    creadoPor: Id,
    fechaCreacion: Time,
    fechaVotacion: Option<Time>,
    fechaAprobacion: Option<Time>)

  const MAX_TITULO: nat := 300
  const MAX_DESCRIPCION: nat := 2000

  /** `Ley.create` with the schema defaults filled in. */
  function NewLey(titulo: string, descripcion: string, categoria: Option<Categoria>,
                  sesion: Id, creadoPor: Id, now: Time): (l: Ley)
    ensures l.estado == Draft && !l.isOnBlockchain && l.blockchainId.None? && l.transactionHash.None?
    ensures l.conteo == CONTEO_INICIAL && l.votos == []
    ensures l.categoria == (if categoria.Some? then categoria.value else Otra)
    ensures l.sesion == sesion && l.titulo == titulo && l.descripcion == descripcion
  {
    Ley(None, titulo, descripcion, if categoria.Some? then categoria.value else Otra, sesion,
        Draft, false, None, CONTEO_INICIAL, [], creadoPor, now, None, None)
  }

  predicate CountersNonNegative(c: Conteo)
  {
    c.votosAFavor >= 0 && c.votosEnContra >= 0 && c.abstenciones >= 0 && c.ausentes >= 0 && c.presentes >= 0
  }

  /** The validators Mongoose runs when a law is saved. */
  predicate SchemaValid(l: Ley)
  {
    && 0 < |l.titulo| <= MAX_TITULO
    && 0 < |l.descripcion| <= MAX_DESCRIPCION
    && OptTxHash(l.transactionHash)
    && CountersNonNegative(l.conteo)
    && forall i :: 0 <= i < |l.votos| ==> OptTxHash(l.votos[i].transactionHash)
  }

  /** The `totalVotos` virtual. */
  function TotalVotos(l: Ley): int
  {
    l.conteo.votosAFavor + l.conteo.votosEnContra + l.conteo.abstenciones
  }

  /** `estaAprobada`. */
  predicate EstaAprobada(l: Ley)
  {
    l.conteo.votosAFavor > l.conteo.votosEnContra
  }

  /** `votos.find(v => v.legislador == id)`: the index of the first record of `id`. */
  function FindVoto(votos: seq<VoteRecord>, id: Id): (r: Option<nat>)
    ensures r.Some? ==> r.value < |votos| && votos[r.value].legislador == id
    ensures r.Some? ==> forall j :: 0 <= j < r.value ==> votos[j].legislador != id
    ensures r.None? ==> forall j :: 0 <= j < |votos| ==> votos[j].legislador != id
  {
    if |votos| == 0 then None
    else if votos[0].legislador == id then Some(0)
    else match FindVoto(votos[1..], id)
      case None => None
      case Some(i) => Some(i + 1)
  }

  /** `obtenerVotoLegislador`: the value of the legislator's first record, AUSENTE without one. */
  function ObtenerVotoLegislador(l: Ley, id: Id): (v: VoteValue)
    ensures (forall j :: 0 <= j < |l.votos| ==> l.votos[j].legislador != id) ==> v == AUSENTE
    ensures forall i :: (0 <= i < |l.votos| && l.votos[i].legislador == id
                         && (forall j :: 0 <= j < i ==> l.votos[j].legislador != id)) ==> v == l.votos[i].voto
  {
    match FindVoto(l.votos, id)
    case None => AUSENTE
    case Some(i) => l.votos[i].voto
  }

  // ---------------------------------------------------------------------------------
  // Counting records

  /** Number of records carrying value `v`. */
  function CountOf(votos: seq<VoteRecord>, v: VoteValue): nat
  {
    if |votos| == 0 then 0
    else CountOf(votos[..|votos| - 1], v) + (if votos[|votos| - 1].voto == v then 1 else 0)
  }

  /** Number of records of legislator `id`. */
  function RecordsOf(votos: seq<VoteRecord>, id: Id): nat
  {
    if |votos| == 0 then 0
    else RecordsOf(votos[..|votos| - 1], id) + (if votos[|votos| - 1].legislador == id then 1 else 0)
  }

  /** Number of records whose value enters `totalVotos` (favour, against, abstention). */
  function CountedRecords(votos: seq<VoteRecord>): nat
  {
    if |votos| == 0 then 0
    else CountedRecords(votos[..|votos| - 1])
         + (if votos[|votos| - 1].voto in {A_FAVOR, EN_CONTRA, ABSTENCION} then 1 else 0)
  }

  /** At most one record per legislator. */
  predicate UniqueVoters(votos: seq<VoteRecord>)
  {
    forall i, j :: 0 <= i < j < |votos| ==> votos[i].legislador != votos[j].legislador
  }

  /** Each counter that vote casting maintains equals the number of records carrying its value. */
  predicate TallyConsistent(l: Ley)
  {
    && l.conteo.presentes == CountOf(l.votos, PRESENTE)
    && l.conteo.votosAFavor == CountOf(l.votos, A_FAVOR)
    && l.conteo.votosEnContra == CountOf(l.votos, EN_CONTRA)
    && l.conteo.abstenciones == CountOf(l.votos, ABSTENCION)
  }

  lemma {:induction false} CountOfAppend(votos: seq<VoteRecord>, r: VoteRecord, v: VoteValue)
    ensures CountOf(votos + [r], v) == CountOf(votos, v) + (if r.voto == v then 1 else 0)
  {
    assert (votos + [r])[..|votos|] == votos;
  }

  lemma {:induction false} RecordsOfAppend(votos: seq<VoteRecord>, r: VoteRecord, id: Id)
    ensures RecordsOf(votos + [r], id) == RecordsOf(votos, id) + (if r.legislador == id then 1 else 0)
  {
    assert (votos + [r])[..|votos|] == votos;
  }

  /** Overwriting one record moves one unit from the old value's count to the new value's. */
  lemma {:induction false} CountOfUpdate(votos: seq<VoteRecord>, i: nat, r: VoteRecord, v: VoteValue)
    requires i < |votos|
    ensures CountOf(votos[i := r], v)
            == CountOf(votos, v) - (if votos[i].voto == v then 1 else 0) + (if r.voto == v then 1 else 0)
    decreases |votos|
  {
    var n := |votos| - 1;
    if i == n {
      assert votos[i := r][..n] == votos[..n];
    } else {
      assert votos[i := r][..n] == votos[..n][i := r];
      CountOfUpdate(votos[..n], i, r, v);
    }
  }

  /** Overwriting a record with one of the same legislator keeps every legislator's record count. */
  lemma {:induction false} RecordsOfUpdate(votos: seq<VoteRecord>, i: nat, r: VoteRecord, id: Id)
    requires i < |votos| && r.legislador == votos[i].legislador
    ensures RecordsOf(votos[i := r], id) == RecordsOf(votos, id)
    decreases |votos|
  {
    var n := |votos| - 1;
    if i == n {
      assert votos[i := r][..n] == votos[..n];
    } else {
      assert votos[i := r][..n] == votos[..n][i := r];
      RecordsOfUpdate(votos[..n], i, r, id);
    }
  }

  /** A legislator without a matching record has no records. */
  lemma {:induction false} RecordsOfNone(votos: seq<VoteRecord>, id: Id)
    requires forall j :: 0 <= j < |votos| ==> votos[j].legislador != id
    ensures RecordsOf(votos, id) == 0
  {
    if |votos| > 0 {
      RecordsOfNone(votos[..|votos| - 1], id);
    }
  }

  /** With one record per legislator, a legislator who has a record has exactly one. */
  lemma {:induction false} RecordsOfUnique(votos: seq<VoteRecord>, i: nat)
    requires UniqueVoters(votos) && i < |votos|
    ensures RecordsOf(votos, votos[i].legislador) == 1
  {
    var n := |votos| - 1;
    var id := votos[i].legislador;
    if i == n {
      RecordsOfNone(votos[..n], id);
    } else {
      RecordsOfUnique(votos[..n], i);
    }
  }

  /** The five value counts partition the records. */
  lemma {:induction false} CountsPartitionRecords(votos: seq<VoteRecord>)
    ensures CountOf(votos, AUSENTE) + CountOf(votos, PRESENTE) + CountOf(votos, A_FAVOR)
            + CountOf(votos, EN_CONTRA) + CountOf(votos, ABSTENCION) == |votos|
  {
    if |votos| > 0 {
      CountsPartitionRecords(votos[..|votos| - 1]);
    }
  }

  /** Records entering `totalVotos` are exactly those for, against or abstaining. */
  lemma {:induction false} CountedRecordsSplit(votos: seq<VoteRecord>)
    ensures CountedRecords(votos) == CountOf(votos, A_FAVOR) + CountOf(votos, EN_CONTRA) + CountOf(votos, ABSTENCION)
  {
    if |votos| > 0 {
      CountedRecordsSplit(votos[..|votos| - 1]);
    }
  }

  /** With counters that agree with the records, `totalVotos` is the number of records for,
      against or abstaining; presence and absence records are not part of it. */
  lemma TotalVotosCountsRecords(l: Ley)
    requires TallyConsistent(l)
    ensures TotalVotos(l) == CountedRecords(l.votos)
    ensures TotalVotos(l) == |l.votos| - CountOf(l.votos, PRESENTE) - CountOf(l.votos, AUSENTE)
  {
    CountedRecordsSplit(l.votos);
    CountsPartitionRecords(l.votos);
  }

  /** `totalVotos` ignores the presence and absence counters. */
  lemma TotalVotosIgnoresAttendance(l: Ley, presentes: int, ausentes: int)
    ensures TotalVotos(l.(conteo := l.conteo.(presentes := presentes, ausentes := ausentes))) == TotalVotos(l)
  {
  }

  /** A law is approved by a strict majority of favour over against: a tie is not approved,
      and with agreeing counters the comparison is on the records. */
  lemma EstaAprobadaStrict(l: Ley)
    ensures l.conteo.votosAFavor == l.conteo.votosEnContra ==> !EstaAprobada(l)
    ensures TallyConsistent(l) ==> (EstaAprobada(l) <==> CountOf(l.votos, A_FAVOR) > CountOf(l.votos, EN_CONTRA))
  {
  }

  /** The value reported for a legislator is the value of a record of theirs, or AUSENTE when
      they have none; with one record per legislator, it is the value of their only record. */
  lemma ObtenerVotoLegisladorUnique(l: Ley, i: nat)
    requires UniqueVoters(l.votos) && i < |l.votos|
    ensures ObtenerVotoLegislador(l, l.votos[i].legislador) == l.votos[i].voto
  {
    var id := l.votos[i].legislador;
    var f := FindVoto(l.votos, id);
    assert f.Some?;
    assert f.value == i;
  }
}
