/** Vote casting on a loaded law: the record list and the five counters that `registrarVoto`
    updates in place before saving. */
module VoteTally {
  import opened Base
  import opened BlockchainService
  import opened LeyModel

  /** The counter a vote value moves, decremented. AUSENTE has none. */
  function Decrement(c: Conteo, v: VoteValue): (r: Conteo)
    ensures r.ausentes == c.ausentes
  {
    match v
    case A_FAVOR => c.(votosAFavor := c.votosAFavor - 1)
    case EN_CONTRA => c.(votosEnContra := c.votosEnContra - 1)
    case ABSTENCION => c.(abstenciones := c.abstenciones - 1)
    case PRESENTE => c.(presentes := c.presentes - 1)
    case AUSENTE => c
  }

  /** The counter a vote value moves, incremented. AUSENTE has none. */
  function Increment(c: Conteo, v: VoteValue): (r: Conteo)
    ensures r.ausentes == c.ausentes
  {
    match v
    case A_FAVOR => c.(votosAFavor := c.votosAFavor + 1)
    case EN_CONTRA => c.(votosEnContra := c.votosEnContra + 1)
    case ABSTENCION => c.(abstenciones := c.abstenciones + 1)
    case PRESENTE => c.(presentes := c.presentes + 1)
    case AUSENTE => c
  }

  /** The record list after `legislador` casts `voto`: their first record is overwritten in
      place, or one record is appended. */
  function CastVotos(votos: seq<VoteRecord>, legislador: Id, voto: VoteValue, fecha: Time,
                     tx: Option<string>): seq<VoteRecord>
  {
    var rec := VoteRecord(legislador, voto, fecha, tx);
    match FindVoto(votos, legislador)
    case Some(i) => votos[i := rec]
    case None => votos + [rec]
  }

  /** The counters after the cast: the previous value's counter (if any) loses one, the new
      value's counter gains one. */
  function CastConteo(c: Conteo, votos: seq<VoteRecord>, legislador: Id, voto: VoteValue): Conteo
  {
    match FindVoto(votos, legislador)
    case Some(i) => Increment(Decrement(c, votos[i].voto), voto)
    case None => Increment(c, voto)
  }

  /** The counter of value `v` in `c`; `ausentes` for AUSENTE. */
  function CounterOf(c: Conteo, v: VoteValue): int
  {
    match v
    case A_FAVOR => c.votosAFavor
    case EN_CONTRA => c.votosEnContra
    case ABSTENCION => c.abstenciones
    case PRESENTE => c.presentes
    case AUSENTE => c.ausentes
  }

  /** The tally of one loaded law document. */
  class Tally {
    var votos: seq<VoteRecord>
    var votosAFavor: int
    var votosEnContra: int
    var abstenciones: int
    var ausentes: int
    var presentes: int

    function Conteo(): Conteo
      reads this
    {
      LeyModel.Conteo(votosAFavor, votosEnContra, abstenciones, ausentes, presentes)
    }

    /** Loads the tally of a stored law. */
    constructor Load(l: Ley)
      ensures votos == l.votos && Conteo() == l.conteo
    {
      votos := l.votos;
      votosAFavor := l.conteo.votosAFavor;
      votosEnContra := l.conteo.votosEnContra;
      abstenciones := l.conteo.abstenciones;
      ausentes := l.conteo.ausentes;
      presentes := l.conteo.presentes;
    }

    /** Casts `voto` for `legislador`: overwrites their record and moves one unit from the old
        value's counter to the new one, or appends a record and bumps one counter. `updated`
        says whether a record existed. */
    method Cast(legislador: Id, voto: VoteValue, fecha: Time, tx: Option<string>) returns (updated: bool)
      modifies this
      ensures updated <==> FindVoto(old(votos), legislador).Some?
      ensures votos == CastVotos(old(votos), legislador, voto, fecha, tx)
      ensures Conteo() == CastConteo(old(Conteo()), old(votos), legislador, voto)
    {
      var existente := FindVoto(votos, legislador);
      if existente.Some? {
        var i := existente.value;
        var anterior := votos[i].voto;
        if anterior == A_FAVOR {
          votosAFavor := votosAFavor - 1;
        } else if anterior == EN_CONTRA {
          votosEnContra := votosEnContra - 1;
        } else if anterior == ABSTENCION {
          abstenciones := abstenciones - 1;
        } else if anterior == PRESENTE {
          presentes := presentes - 1;
        }
        votos := votos[i := VoteRecord(legislador, voto, fecha, tx)];
        updated := true;
      } else {
        votos := votos + [VoteRecord(legislador, voto, fecha, tx)];
        updated := false;
      }
      if voto == A_FAVOR {
        votosAFavor := votosAFavor + 1;
      } else if voto == EN_CONTRA {
        votosEnContra := votosEnContra + 1;
      } else if voto == ABSTENCION {
        abstenciones := abstenciones + 1;
      } else if voto == PRESENTE {
        presentes := presentes + 1;
      }
    }
  }

  // ---------------------------------------------------------------------------------
  // Properties of a cast

  /** The counter movement: a re-vote takes one from the old value's counter and gives one to
      the new value's; a first vote only gives; AUSENTE moves nothing and `ausentes` never changes. */
  lemma CastMovesOneUnit(c: Conteo, votos: seq<VoteRecord>, legislador: Id, voto: VoteValue, w: VoteValue)
    ensures var c2 := CastConteo(c, votos, legislador, voto);
      && c2.ausentes == c.ausentes
      && (w != AUSENTE ==>
            CounterOf(c2, w) == CounterOf(c, w)
              - (if FindVoto(votos, legislador).Some? && votos[FindVoto(votos, legislador).value].voto == w then 1 else 0)
              + (if voto == w then 1 else 0))
  {
  }

  /** A cast keeps every record of other legislators, and leaves `legislador` with a record
      carrying the cast value. */
  lemma CastRecordsSemantics(votos: seq<VoteRecord>, legislador: Id, voto: VoteValue, fecha: Time, tx: Option<string>)
    ensures var r := CastVotos(votos, legislador, voto, fecha, tx);
      && FindVoto(r, legislador).Some?
      && r[FindVoto(r, legislador).value] == VoteRecord(legislador, voto, fecha, tx)
      && |r| == |votos| + (if FindVoto(votos, legislador).Some? then 0 else 1)
      && forall j :: 0 <= j < |votos| && votos[j].legislador != legislador ==> r[j] == votos[j]
  {
    var r := CastVotos(votos, legislador, voto, fecha, tx);
    var rec := VoteRecord(legislador, voto, fecha, tx);
    match FindVoto(votos, legislador)
    case Some(i) =>
      assert r[i] == rec;
      FindVotoFirst(r, legislador, i);
    case None =>
      assert r[|votos|] == rec;
      FindVotoFirst(r, legislador, |votos|);
  }

  /** `FindVoto` returns `i` when `i` is the first record of `id`. */
  lemma FindVotoFirst(votos: seq<VoteRecord>, id: Id, i: nat)
    requires i < |votos| && votos[i].legislador == id
    requires forall j :: 0 <= j < i ==> votos[j].legislador != id
    ensures FindVoto(votos, id) == Some(i)
  {
  }

  /** Casting never creates a second record for a legislator: the voter's record count after a
      cast is one, and every other legislator's count is unchanged. */
  lemma CastKeepsOneRecordPerVoter(votos: seq<VoteRecord>, legislador: Id, voto: VoteValue,
                                   fecha: Time, tx: Option<string>, other: Id)
    requires UniqueVoters(votos)
    ensures UniqueVoters(CastVotos(votos, legislador, voto, fecha, tx))
    ensures RecordsOf(CastVotos(votos, legislador, voto, fecha, tx), legislador) == 1
    ensures other != legislador ==> RecordsOf(CastVotos(votos, legislador, voto, fecha, tx), other) == RecordsOf(votos, other)
  {
    var rec := VoteRecord(legislador, voto, fecha, tx);
    var r := CastVotos(votos, legislador, voto, fecha, tx);
    match FindVoto(votos, legislador)
    case Some(i) =>
      assert r == votos[i := rec];
      RecordsOfUpdate(votos, i, rec, legislador);
      RecordsOfUpdate(votos, i, rec, other);
      RecordsOfUnique(votos, i);
    case None =>
      assert r == votos + [rec];
      RecordsOfAppend(votos, rec, legislador);
      RecordsOfAppend(votos, rec, other);
      RecordsOfNone(votos, legislador);
  }

  /** With counters that agree with the records for PRESENTE, A_FAVOR, EN_CONTRA and
      ABSTENCION before a cast, they agree after it. */
  lemma CastPreservesAgreement(l: Ley, legislador: Id, voto: VoteValue, fecha: Time, tx: Option<string>)
    requires TallyConsistent(l)
    ensures TallyConsistent(l.(votos := CastVotos(l.votos, legislador, voto, fecha, tx),
                               conteo := CastConteo(l.conteo, l.votos, legislador, voto)))
  {
    var rec := VoteRecord(legislador, voto, fecha, tx);
    var r := CastVotos(l.votos, legislador, voto, fecha, tx);
    match FindVoto(l.votos, legislador)
    case Some(i) =>
      assert r == l.votos[i := rec];
      CountOfUpdate(l.votos, i, rec, PRESENTE);
      CountOfUpdate(l.votos, i, rec, A_FAVOR);
      CountOfUpdate(l.votos, i, rec, EN_CONTRA);
      CountOfUpdate(l.votos, i, rec, ABSTENCION);
    case None =>
      assert r == l.votos + [rec];
      CountOfAppend(l.votos, rec, PRESENTE);
      CountOfAppend(l.votos, rec, A_FAVOR);
      CountOfAppend(l.votos, rec, EN_CONTRA);
      CountOfAppend(l.votos, rec, ABSTENCION);
  }

  /** Counters that agree with the records stay non-negative after a cast. */
  lemma CastKeepsCountersNonNegative(l: Ley, legislador: Id, voto: VoteValue, fecha: Time, tx: Option<string>)
    requires TallyConsistent(l) && l.conteo.ausentes >= 0
    ensures CountersNonNegative(CastConteo(l.conteo, l.votos, legislador, voto))
  {
    CastPreservesAgreement(l, legislador, voto, fecha, tx);
  }

  /** Re-casting the same value with the same record data changes nothing. */
  lemma CastIdempotent(votos: seq<VoteRecord>, c: Conteo, legislador: Id, voto: VoteValue, fecha: Time, tx: Option<string>)
    ensures var v1 := CastVotos(votos, legislador, voto, fecha, tx);
      && CastVotos(v1, legislador, voto, fecha, tx) == v1
      && CastConteo(CastConteo(c, votos, legislador, voto), v1, legislador, voto) == CastConteo(c, votos, legislador, voto)
  {
    CastRecordsSemantics(votos, legislador, voto, fecha, tx);
    var v1 := CastVotos(votos, legislador, voto, fecha, tx);
    var i := FindVoto(v1, legislador).value;
    assert v1[i := VoteRecord(legislador, voto, fecha, tx)] == v1;
  }

  // ---------------------------------------------------------------------------------
  // The lookup as written

  /** The records after a cast as `registrarVoto` runs it. The law is loaded with `findById`,
      and the `pre(/^find/)` hook of the law schema populates `votos.legislador`. So when the
      lookup turns each record's `legislador` into a string to compare it with the user's id,
      it gets a User document's text, never an id's string. The lookup finds no record, and every cast
      appends one. */
  function CastVotosAsWritten(votos: seq<VoteRecord>, legislador: Id, voto: VoteValue, fecha: Time,
                              tx: Option<string>): seq<VoteRecord>
  {
    votos + [VoteRecord(legislador, voto, fecha, tx)]
  }

  /** The counters after that cast: the previous value's counter is never taken back. */
  function CastConteoAsWritten(c: Conteo, voto: VoteValue): Conteo
  {
    Increment(c, voto)
  }

  /** As written, a legislator who already voted and votes again gets a second record. One
      record per voter is broken, the earlier vote's counter keeps its unit, and the record list
      differs from the one the intended lookup (`CastVotos`) gives. */
  lemma RevoteDuplicatesAsWritten(votos: seq<VoteRecord>, c: Conteo, legislador: Id, voto: VoteValue,
                                  fecha: Time, tx: Option<string>)
    requires UniqueVoters(votos) && FindVoto(votos, legislador).Some?
    ensures var r := CastVotosAsWritten(votos, legislador, voto, fecha, tx);
      && !UniqueVoters(r)
      && RecordsOf(r, legislador) == 2
      && r != CastVotos(votos, legislador, voto, fecha, tx)
    ensures var w := votos[FindVoto(votos, legislador).value].voto;
      w != voto && w != AUSENTE ==>
        && CounterOf(CastConteoAsWritten(c, voto), w) == CounterOf(c, w)
        && CounterOf(CastConteo(c, votos, legislador, voto), w) == CounterOf(c, w) - 1
  {
    var i := FindVoto(votos, legislador).value;
    var rec := VoteRecord(legislador, voto, fecha, tx);
    var r := CastVotosAsWritten(votos, legislador, voto, fecha, tx);
    assert r[i].legislador == r[|votos|].legislador;
    RecordsOfAppend(votos, rec, legislador);
    RecordsOfUnique(votos, i);
    assert |CastVotos(votos, legislador, voto, fecha, tx)| == |votos|;
  }
}
