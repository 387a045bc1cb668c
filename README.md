# VotacionBlockchainBackend — a Dafny model of the voting core

VotacionBlockchainBackend is an Express/Mongoose backend for legislative voting. Admins open
sessions (`Sesion`) and add laws (`Ley`) to them. Legislators (`User` with role `legislador`)
cast one vote per law while the law is in voting. Every session, law and vote is mirrored on
an Ethereum contract through `blockchainService`. This project models the part of the backend
that decides what is stored and what is answered:

- **Data** (`base.dfy`, `ley.dfy`, `sesion.dfy`, `user.dfy`): the three Mongoose schemas as
  datatypes, with their enums, length limits (measured on the strings as given, without the
  schemas' `trim`; see Left out), defaults and `min: 0` counters as schema predicates. It also has the model virtuals and methods: `totalVotos`, `estaAprobada`,
  `obtenerVotoLegislador`, `cantidadLeyes`, `nombreCompleto`, `correctPassword` and
  `changedPasswordAfter`.
- **Store** (`store.dfy`): the database as a class `Db` with one `map` field per collection
  and an id counter that the controllers update in place. Two invariants are kept:
  - `Valid`: every stored document passes its schema and the unique indexes. These are
    `Sesion.blockchainId` (unique, sparse), email, walletAddress and numeroLegislador (unique,
    sparse: a stored `null` is indexed, a missing field is not) on `User`, and the compound `(blockchainId, sesion)` on `Ley`. `Valid` reads the compound
    index in its intended sense: unique once a law is on the ledger. MongoDB builds it as
    declared, so a session cannot hold two laws off the ledger. `agregarLey` is the only
    handler that creates laws, and it is modelled under both readings (a `LawIndex`
    parameter; see Findings).
  - `Coherent`: a law's state fits the state of its session, and session and law reference
    each other.
- **Ledger** (`blockchain_service.dfy`): the vote-state encoding
  `mapearEstadoVoto`/`mapearEstadoVotoInverso`, the error wrapping
  `"Error en blockchain: …"`, and the read calls. Each ledger call's outcome is a
  `LedgerResult` parameter, so a failing or succeeding contract is an input of the model.
- **Controllers** (`votacion_controller.dfy`, `vote_tally.dfy`, `sesion_controller.dfy`,
  `legislador_controller.dfy`, `auth_controller.dfy`, `field_filter.dfy`): each
  state-changing handler is a method on `Db`. Its `ensures` ties the reply and the new
  state to a specification function of the old state. The properties are lemmas about
  those functions: what each reply implies, "nothing else changes", both invariants
  preserved, round trips, idempotence. The vote tally is a class `Tally` that
  `registrarVoto` updates record by record.
- **Middleware** (`auth_middleware.dfy`, `error_handler.dfy`):
  - `protect` checks the token, the user, the account state and the password-change date,
    then saves the login time;
  - `restrictTo` and `verificarLegisladorRegistrado` guard the routes;
  - the global error handler classifies errors and answers in development or production
    mode.

Parameters stand in for what the model cannot see:
- each blockchain call's result;
- the JWT verifier, as a function from token to verdict;
- the clock (`now`, in milliseconds);
- the email validator's verdict;
- the user that `login` found by email;
- the order in which `Ley.find` lists the laws holding a legislator's record, for `getEstadisticasLegislador` (`found`; which laws it lists is fixed by `FindsVotedLaws`);
- the `.env` fallback private key.

## Model

| member | source | states |
|---|---|---|
| LeyModel.SchemaValid | models/Ley.js:3-122 | the save validators: title 1..300 and description 1..2000 characters, a well-formed transaction hash when set (also on each vote record), and no counter below zero |
| LeyModel.NewLey | models/Ley.js:36-78 | a new law is a draft off the ledger with zero counters, no votes and category `otra` by default |
| LeyModel.FindVoto | models/Ley.js:155-158 | the index found is the first record of that legislator; none means no record of them |
| LeyModel.ObtenerVotoLegislador | models/Ley.js:155-158 | the vote of the legislator's first record, `AUSENTE` when they have none |
| LeyModel.ObtenerVotoLegisladorUnique | models/Ley.js:155-158 | with one record per voter, the lookup returns exactly that record's vote |
| LeyModel.CountsPartitionRecords | models/Ley.js:81-100 | the five vote values partition the records: their counts add up to the number of records |
| LeyModel.TotalVotos | models/Ley.js:130-132 | the for, against and abstain counters added up; its properties are in the two rows below |
| LeyModel.TotalVotosCountsRecords | models/Ley.js:130-132 | when counters agree with records, `totalVotos` is the number of for/against/abstain records, i.e. all records minus present and absent |
| LeyModel.TotalVotosIgnoresAttendance | models/Ley.js:130-132 | `totalVotos` does not depend on the present/absent counters |
| LeyModel.EstaAprobada | models/Ley.js:150-152 | more for-votes than against-votes in the counters; EstaAprobadaStrict below relates it to the records |
| LeyModel.EstaAprobadaStrict | models/Ley.js:150-152 | a tie is never approved; with agreeing counters, approved iff more for-records than against-records |
| SesionModel.ParseTipoVotacion | models/Sesion.js:66-70 | only `simple` and `calificada` are accepted voting types |
| SesionModel.NewSesion | models/Sesion.js:26-76 | a new session is a draft with no laws, off the ledger, no start or end date |
| SesionModel.CantidadLeyes | models/Sesion.js:85-87 | the law count is the length of the law list, zero iff the list is empty; its partners are SesionController.AgregarRaisesCantidad and SesionController.EliminarLowersCantidad |
| SesionModel.SchemaValid | models/Sesion.js:3-77 | the save validators: title 1..200 and description 1..1000 characters, a date, a well-formed transaction hash when set, quorum 1..100 |
| SesionModel.NewSesionValid | models/Sesion.js:12-76 | a new session passes the schema iff its title, description and date are within limits and the quorum is 1..100; the default quorum always fits |
| UserModel.NewUser | models/User.js:69-90 | a new account is an active legislator, not on the ledger, with no password change and no login yet |
| UserModel.SchemaValid | models/User.js:4-100 | the save validators: names 1..100 characters, an e-mail, phone at most 20 and party and district at most 100 characters when set, a well-formed wallet address, a password of at least 6 characters |
| UserModel.HashPassword | models/User.js:113-123 | the stored hash accepts the password it was made from and no other |
| UserModel.CorrectPassword | models/User.js:121-123 | the candidate is accepted iff it is the password the stored hash was made from (HashPassword above proves both directions) |
| UserModel.NombreCompleto | models/User.js:108-110 | first name, one space, last name |
| UserModel.NombreCompletoSplits | models/User.js:108-110 | splitting the full name at the first space gives back the first and last names |
| UserModel.TruncDiv | models/User.js:128-131 | `parseInt` of a quotient: the result has the sign of the dividend and is the multiple of the divisor nearest the dividend on the side of zero (below it for non-negative dividends, above it for negative ones, within one divisor) |
| UserModel.ChangedPasswordAfter | models/User.js:126-135 | false without a recorded change; otherwise whether the token's second is before the change time in milliseconds, truncated to seconds |
| UserModel.ChangedPasswordAfterSeconds | models/User.js:126-135 | for a non-negative change time, a token issued at second `iat` is stale iff the change time in milliseconds is at least `iat*1000+1000` |
| UserModel.ChangedPasswordAfterNegative | models/User.js:126-135 | for a change time before the epoch, where truncation rounds up, a token issued at second `iat` is stale iff `iat*1000` is strictly before the change time |
| UserModel.NoChangeNeverStale | models/User.js:133-134 | without a recorded change no token is stale |
| Store.SessionKeyFree | models/Sesion.js:4-8 | the unique session index: no other session has the same ledger id, once one is set |
| Store.LawKeyFree | models/Ley.js:176 | the law index in its intended reading: no other law of the same session has the same ledger id, once one is set |
| Store.LawKeyFreeAsWritten | models/Ley.js:176 | the law index as MongoDB builds it: no other law of the same session has the same ledger id, an absent one included |
| Store.UserKeysFree | models/User.js:18-59 | the unique user indexes: no other user has the same e-mail or wallet, nor the same stored legislator number, where an explicit `null` counts as stored and only a missing field is skipped |
| Store.CanSaveSesion | models/Sesion.js:3-77 | a session save is admitted iff it passes the schema and the session index |
| Store.CanSaveLey | models/Ley.js:3-176 | a law save is admitted iff it passes the schema and the law index in its intended reading |
| Store.CanSaveUser | models/User.js:4-100 | a user save is admitted iff it passes the schema and the user indexes |
| Store.Valid | models/Ley.js:176 | every id is below the counter and every stored document is one its own save would admit; every handler's Preserves lemma keeps it |
| Store.DraftLawAdmitted | models/Ley.js:176 | a law off the ledger that passes the schema is admitted under the intended reading of the law index |
| Store.SecondDraftLawRejectedAsWritten | models/Ley.js:176 | with one draft law stored, a second draft law of the same session is refused by the index as built and admitted by the intended reading |
| Store.CanCreateLey | models/Ley.js:176 | a new law is admitted under reading `ix`: the schema plus the index as declared or as intended |
| Store.CreatedLeyAdmitted | models/Ley.js:176 | a law admitted under either reading satisfies the store invariant's admission, so `AgregarLey` keeps `Valid` under both |
| BlockchainService.ParseVote | services/blockchainService.js:250-259 | a string parses to a vote value exactly when it is that value's name |
| BlockchainService.MapearEstadoVoto | services/blockchainService.js:250-259 | the encoding is in 0..4 and unknown strings encode as 0 (`AUSENTE`) |
| BlockchainService.MapearEstadoVotoInverso | services/blockchainService.js:261-264 | decoding always yields a vote name, `AUSENTE` outside 0..4 |
| BlockchainService.DecodeEncode | services/blockchainService.js:250-264 | decoding the encoding of a vote name gives the name back |
| BlockchainService.EncodeDecode | services/blockchainService.js:250-264 | encoding the decoding of 0..4 gives the number back |
| BlockchainService.EncodeInjective | services/blockchainService.js:250-259 | distinct vote values get distinct codes |
| BlockchainService.NameInjective | services/blockchainService.js:250-259 | distinct vote values have distinct names |
| BlockchainService.ParseName | services/blockchainService.js:250-259 | every vote name parses back to its value |
| BlockchainService.RoundTripOnlyForNames | services/blockchainService.js:250-264 | the string round trip holds iff the string is a vote name; any other string comes back as `AUSENTE` |
| BlockchainService.Wrap | services/blockchainService.js:28-51 | success passes through unchanged; a failure becomes `Error en blockchain: ` followed by the original cause |
| BlockchainService.ObtenerResultadosLey | services/blockchainService.js:189-202 | results pass through, failures are wrapped with the blockchain prefix |
| BlockchainService.VerificarLegislador | services/blockchainService.js:179-187 | a legislator counts as registered only when the call answers true; a failed call means not registered |
| BlockchainService.WrappedErrorIsClassified | services/blockchainService.js:49 | every wrapped ledger failure carries the mark the error handler looks for |
| VoteTally.Decrement | controllers/votacionController.js:78-84 | taking back a vote never touches the absent counter |
| VoteTally.Increment | controllers/votacionController.js:101-104 | adding a vote never touches the absent counter |
| VoteTally.Tally.Load | controllers/votacionController.js:53 | the tally starts from the law's records and counters |
| VoteTally.Tally.Cast | controllers/votacionController.js:78-104 | reports an update iff the legislator had a record; records and counters become the cast specification of the old ones |
| VoteTally.CastMovesOneUnit | controllers/votacionController.js:78-104 | a cast moves one unit from the previous vote's counter (if any) to the new vote's; the absent counter never changes |
| VoteTally.CastRecordsSemantics | controllers/votacionController.js:78-98 | after a cast the legislator's first record is the new vote; one record is appended only when none existed; other legislators' records are untouched |
| VoteTally.CastKeepsOneRecordPerVoter | controllers/votacionController.js:78-98 | one record per voter is preserved; the caster has exactly one record and everyone else keeps theirs |
| VoteTally.CastPreservesAgreement | controllers/votacionController.js:78-104 | if the counters agreed with the records before a cast, they agree after |
| VoteTally.CastKeepsCountersNonNegative | controllers/votacionController.js:78-108 | with agreeing counters no counter goes below zero, so the `min: 0` schema check passes |
| VoteTally.CastIdempotent | controllers/votacionController.js:78-104 | casting the same vote twice leaves records and counters as after the first cast |
| VoteTally.CastVotosAsWritten | controllers/votacionController.js:53 | as written the lookup never matches a populated record (models/Ley.js:161-170), so every cast appends a record |
| VoteTally.CastConteoAsWritten | controllers/votacionController.js:78-104 | as written no earlier counter is taken back; only the new value's counter gains one |
| VoteTally.RevoteDuplicatesAsWritten | controllers/votacionController.js:53-104 | as written a legislator who voted and votes again gets two records, breaking one record per voter, and the earlier value's counter keeps its unit; the intended lookup takes it back |
| VotacionController.CastableVote | routes/votaciones.js:19-21 | the route accepts exactly `PRESENTE`, `A_FAVOR`, `EN_CONTRA`, `ABSTENCION`; never `AUSENTE` |
| VotacionController.ResolveKey | controllers/votacionController.js:61-68 | the body's private key wins, then the environment's; the vote fails when neither is non-empty |
| VotacionController.RegistrarVoto | controllers/votacionController.js:8-140 | reply, the ledger call made (session and law ledger ids, vote number, key) and new store equal the vote specification of the old store |
| VotacionController.VoteRequiresOpenLaw | controllers/votacionController.js:21-50 | a recorded vote implies an active session, a law of that session in voting, a castable value and a successful ledger call; anything else changes nothing |
| VotacionController.VoteLedgerFirst | controllers/votacionController.js:61-75 | no key, no submission; a failed submission answers the wrapped cause and changes nothing; every recorded vote was submitted |
| VotacionController.VoteSubmission | controllers/votacionController.js:56-75 | the ledger gets the session's and the law's ledger ids, the resolved key and `mapearEstadoVoto` of the cast name, a number in 1..4 that `mapearEstadoVotoInverso` turns back into that name; an accepted vote stores as the caller's vote the value the ledger got |
| VotacionController.VoteChangesOnlyTheTally | controllers/votacionController.js:78-129 | a vote changes only that law's records, counters and vote date; `updated` iff the legislator had voted; the reply shows the new counters |
| VotacionController.VoteKeepsTallyInvariant | controllers/votacionController.js:78-108 | after a vote the law still has one record per voter and agreeing counters, and the legislator's vote is the one cast |
| VotacionController.VotePreservesInvariants | controllers/votacionController.js:8-140 | a vote keeps the store valid and coherent |
| VotacionController.ResyncedTallyCanRejectRevote | controllers/votacionController.js:70-108 | once a ledger sync has lowered a counter below the records, a changed vote is submitted to the ledger and then refused by the counters' `min: 0`, leaving the store unchanged |
| VotacionController.MiVotoEn | controllers/votacionController.js:259-273 | voting is open iff the law is in voting; the record shown is the legislator's first, or none when they never voted |
| VotacionController.ObtenerMiVoto | controllers/votacionController.js:238-276 | found iff the law belongs to the session; otherwise not found |
| VotacionController.ObtenerMisVotos | controllers/votacionController.js:278-321 | found iff the session exists; one entry per law of the session, each the single-law answer |
| VotacionController.MisVotosAgreesWithMiVoto | controllers/votacionController.js:289-308 | the list answer for a law equals the single-law answer |
| VotacionController.MiVotoAfterVote | controllers/votacionController.js:238-276 | right after a recorded vote, the legislator's own view shows that vote with that date, and voting is still open |
| VotacionController.EstadisticasLegislador | controllers/votacionController.js:458-542 | found iff the stored user `id` exists and is a legislator; over the stored laws the query lists, the counters and history are the reference counts |
| VotacionController.LeyesAt | controllers/votacionController.js:470-472 | the laws the query returns are the stored documents with the listed ids, in the listed order |
| VotacionController.TallyVotes | controllers/votacionController.js:485-521 | the loop's counters equal the reference counts `VotedLaws`/`VotedWith` and its history is `HistorialOf` |
| VotacionController.AllVotedCount | controllers/votacionController.js:486-488 | when every law holds a record of the legislator, each counts toward `totalVotos` |
| VotacionController.StatsCountFound | controllers/votacionController.js:470-488 | since the query lists only laws holding the legislator's record, `totalVotos` and the history length equal the number of laws found |
| VotacionController.StatsPartition | controllers/votacionController.js:485-521 | the per-value counts add up to the laws voted on minus the absent ones |
| VotacionController.HistorialLength | controllers/votacionController.js:485-521 | the history has one entry per law the legislator voted on |
| SesionController.TipoOrDefault | controllers/sesionController.js:104 | the voting type defaults to `simple` when missing or empty |
| SesionController.QuorumOrDefault | controllers/sesionController.js:105 | the quorum defaults to 50 when missing or zero |
| SesionController.CrearSesion | controllers/sesionController.js:88-115 | reply and new store equal the creation specification |
| SesionController.CrearDefaults | controllers/sesionController.js:88-115 | created iff the input is valid; the new session takes the next id, a draft off the ledger with no laws and the defaults; a refusal changes nothing |
| SesionController.CrearPreserves | controllers/sesionController.js:88-115 | creation keeps the store valid and coherent |
| SesionController.SesionUpdateOk | controllers/sesionController.js:135-142 | the update validators on the allowed keys: title and description within their lengths, a non-empty date, a known voting type, quorum 1..100 |
| SesionController.UpdateSesion | controllers/sesionController.js:117-157 | reply and new store equal the update specification, which runs the update validators before it looks the session up |
| SesionController.UpdateSesionEffect | controllers/sesionController.js:117-157 | a body failing the validators is refused and changes nothing, whether or not the session exists; with a valid body a missing id answers not found; an existing session is updated iff the validators pass, taking each given title, description, date, quorum and voting type and keeping the rest |
| SesionController.UpdateSesionOnlyEditable | controllers/sesionController.js:117-157 | an update never changes state, ledger fields, law list or author; other sessions, laws and users are untouched; keys outside the allow-list have no effect |
| SesionController.UpdateSesionPreserves | controllers/sesionController.js:117-157 | session update keeps the store valid and coherent |
| SesionController.UpdateLey | controllers/sesionController.js:282-327 | reply and new store equal the law-update specification |
| SesionController.UpdateLeyOnlyEditable | controllers/sesionController.js:282-327 | a law update changes only title, description and category of that law |
| SesionController.UpdateLeyPreserves | controllers/sesionController.js:282-327 | law update keeps the store valid and coherent |
| SesionController.DeleteSesion | controllers/sesionController.js:159-196 | reply and new store equal the deletion specification |
| SesionController.DeleteSesionEffect | controllers/sesionController.js:179-190 | deleted iff draft or cancelled; the session and exactly its laws disappear; otherwise nothing changes |
| SesionController.DeleteSesionPreserves | controllers/sesionController.js:159-196 | deletion keeps the store valid and coherent |
| SesionController.AgregarLeyInput | routes/sesiones.js:28-43 | a law input is accepted iff title 5..300, description 10..2000 and any category is known |
| SesionController.AgregarLey | controllers/sesionController.js:233-280 | reply and new store equal the add-law specification under the chosen reading of the law index |
| SesionController.AgregarEffect | controllers/sesionController.js:253-271 | under the intended index: added iff the session is not closed; under the index as declared: added iff the session is not closed and has no law off the ledger; the new law is a fresh draft of that session appended to its list; otherwise nothing changes |
| SesionController.AgregarDoneShape | controllers/sesionController.js:253-271 | a successful add stores the new law under the next id, admitted by the store invariant's index, and the session with that id appended, also admitted |
| SesionController.NoLawOffLedger | models/Ley.js:176 | every law of the session has a ledger id, the case in which the index as declared admits another draft law |
| SesionController.SecondDraftLawRefusedAsDeclared | controllers/sesionController.js:253-259 | once a session holds a law off the ledger, adding another law passes every check of the handler and is then refused by the index as declared, changing nothing; the intended index admits it |
| SesionController.AgregarRaisesCantidad | models/Sesion.js:85-87 | a successful add raises the session's `cantidadLeyes` by exactly one |
| SesionController.AgregarPreserves | controllers/sesionController.js:233-280 | adding a law keeps the store valid and coherent |
| SesionController.Pull | controllers/sesionController.js:359-363 | removing an id drops every copy of it and keeps every other id with its multiplicity |
| SesionController.PullConcat | controllers/sesionController.js:359-363 | pulling distributes over concatenation, so the ids left keep their order |
| SesionController.EliminarLey | controllers/sesionController.js:329-372 | reply and new store equal the remove-law specification |
| SesionController.EliminarEffect | controllers/sesionController.js:352-366 | removed iff the law has no votes; it leaves the store and the session's list, other laws stay; otherwise nothing changes |
| SesionController.EliminarLowersCantidad | models/Sesion.js:85-87 | a successful removal lowers the session's `cantidadLeyes` by the number of copies of the id listed, and every other id keeps its multiplicity |
| SesionController.EliminarPreserves | controllers/sesionController.js:329-372 | removing a law keeps the store valid and coherent |
| SesionController.ActivarSesion | controllers/sesionController.js:374-465 | reply and new store equal the activation specification |
| SesionController.RegisterPrefixFrame | controllers/sesionController.js:424-447 | registering laws one by one touches only the laws; each is either unchanged or registered with the receipt of its own call |
| SesionController.RegisteredOverwrites | controllers/sesionController.js:436-440 | registering a law again overwrites the earlier receipt |
| SesionController.ActivarSession | controllers/sesionController.js:393-422 | activation needs a draft session with laws and a successful ledger call; it then records the chain id and transaction; otherwise nothing changes |
| SesionController.ActivarLaws | controllers/sesionController.js:424-447 | after activation each law is unchanged or registered by a successful call and in voting; a law whose calls all failed is unchanged |
| SesionController.RegisterAllFail | controllers/sesionController.js:424-447 | when every law call fails, no law changes and the count is zero |
| SesionController.PassRegisters | controllers/sesionController.js:427-443 | a pass registers its law when the law is stored, its ledger call succeeded and the save admits it |
| SesionController.PassStep | controllers/sesionController.js:427-447 | a pass adds one to `leyesRegistradas` exactly when it registers its law, which then holds that call's ledger id and hash and is in voting |
| SesionController.Passes | controllers/sesionController.js:424-447 | the positions of the list whose pass registered its law |
| SesionController.PassesGrow | controllers/sesionController.js:424-447 | one more pass adds its position exactly when it registers |
| SesionController.RegisterCount | controllers/sesionController.js:424-447 | `leyesRegistradas` equals the number of passes that registered their law |
| SesionController.ActivarCount | controllers/sesionController.js:424-455 | the reply of a successful activation is the number of listed positions whose law was registered |
| SesionController.ActivarPreserves | controllers/sesionController.js:374-465 | activation keeps the store valid and coherent |
| SesionController.FinalizarSesion | controllers/sesionController.js:467-531 | reply and new store equal the finishing specification |
| SesionController.FinalizarEffect | controllers/sesionController.js:486-530 | finishing needs an active session (and a ledger success if on chain); each of its laws becomes approved iff more for than against, else rejected, with votes kept; other laws untouched |
| SesionController.FinalizarPreserves | controllers/sesionController.js:467-531 | finishing keeps the store valid and coherent |
| SesionController.CancelarSesion | controllers/sesionController.js:533-576 | reply and new store equal the cancelling specification |
| SesionController.CancelarEffect | controllers/sesionController.js:552-567 | cancelled iff not closed; the session and its laws become cancelled, others untouched; cancelling again is refused |
| SesionController.CancelarPreserves | controllers/sesionController.js:533-576 | cancelling keeps the store valid and coherent |
| SesionController.SyncTargets | controllers/sesionController.js:605-609 | the laws synchronised are exactly the session's laws that are on the ledger |
| SesionController.SincronizarConBlockchain | controllers/sesionController.js:578-673 | reply and new store equal the synchronisation specification |
| SesionController.SyncLey | controllers/sesionController.js:609-650 | one law: an entry iff on chain; counters overwritten by the ledger's answer, or unchanged on error |
| SesionController.SincronizarEffect | controllers/sesionController.js:597-651 | only counters change, and "present" never; for each on-chain law the counters become the ledger's numbers and the entry reports whether they differed; a failed read is reported and changes nothing |
| SesionController.SincronizarIdempotent | controllers/sesionController.js:597-651 | a second synchronisation against the same ledger changes nothing and reports nothing updated |
| SesionController.SincronizarCanBreakAgreement | controllers/sesionController.js:618-633 | a sync can leave counters that disagree with the stored vote records |
| SesionController.SincronizarPreserves | controllers/sesionController.js:578-673 | synchronisation keeps the store valid and coherent |
| LegisladorController.LegisladorStatus | controllers/legisladorController.js:84-99 | ledger status shown iff the user is flagged registered; in sync iff the ledger says member |
| LegisladorController.GetLegislador | controllers/legisladorController.js:63-108 | found iff the id exists; the legislator as stored, with the ledger status as above |
| LegisladorController.MyBlockchainStatus | controllers/legisladorController.js:356-366 | can vote iff the ledger says member and the account is active; in sync iff ledger and flag agree |
| LegisladorController.RegistrarEnBlockchain | controllers/legisladorController.js:196-246 | reply and new store equal the registration specification |
| LegisladorController.RegistrarEffect | controllers/legisladorController.js:216-245 | registered iff the user exists, is not yet flagged and the call succeeds; already flagged is refused; only the flag changes; a failure changes nothing |
| LegisladorController.RegistrarPreserves | controllers/legisladorController.js:196-246 | registration keeps the store valid and coherent |
| LegisladorController.EliminarDeBlockchain | controllers/legisladorController.js:248-298 | reply and new store equal the removal specification |
| LegisladorController.EliminarEffect | controllers/legisladorController.js:268-297 | removed iff the user exists, is flagged and the call succeeds; not flagged is refused; only the flag changes |
| LegisladorController.EliminarPreserves | controllers/legisladorController.js:248-298 | removal keeps the store valid and coherent |
| LegisladorController.RegistrarEliminarRoundTrip | controllers/legisladorController.js:196-298 | registering then removing with successful calls restores the store |
| LegisladorController.EliminarRegistrarRoundTrip | controllers/legisladorController.js:196-298 | removing then registering with successful calls restores the store |
| LegisladorController.DeleteLegislador | controllers/legisladorController.js:158-194 | reply and new store equal the soft-delete specification |
| LegisladorController.DeleteLegisladorEffect | controllers/legisladorController.js:171-188 | deleted iff the user exists; only `isActive` falls; the reply says whether the user was on chain; the user can no longer vote |
| LegisladorController.DeleteLegisladorPreserves | controllers/legisladorController.js:158-194 | soft delete keeps the store valid and coherent |
| LegisladorController.LegisladoresOf | controllers/legisladorController.js:302 | exactly the users with role legislator |
| LegisladorController.SyncedUser | controllers/legisladorController.js:308-313 | syncing a user changes only its ledger flag |
| LegisladorController.SyncronizarConBlockchain | controllers/legisladorController.js:300-352 | reply and new store equal the user-sync specification |
| LegisladorController.SyncronizarEffect | controllers/legisladorController.js:305-335 | only flags change; every legislator gets an entry; a checked entry reports the ledger's answer and whether the flag changed |
| LegisladorController.SyncronizarBeforeSync | controllers/legisladorController.js:315-324 | the reported `beforeSync` is the negation of `afterSync`, not the old flag, so a user already in sync is reported as (false, true, false) |
| LegisladorController.SyncronizarAdmitted | controllers/legisladorController.js:308-313 | on a valid store every save succeeds and each flag becomes the ledger's answer |
| LegisladorController.SyncronizarPreserves | controllers/legisladorController.js:300-352 | user sync keeps the store valid and coherent |
| LegisladorController.SyncronizarLedgerDown | controllers/legisladorController.js:308 | when every call fails, every legislator ends up flagged unregistered |
| LegisladorController.SyncronizarIdempotent | controllers/legisladorController.js:305-335 | a second sync against the same ledger changes nothing and reports nothing updated |
| FieldFilter.FilterObj | controllers/authController.js:6-12 | the loop's result is the body restricted to the allowed keys |
| FieldFilter.FilteredExactly | controllers/authController.js:6-12 | a key survives iff it is in the body and allowed, with its value |
| FieldFilter.FilteredIdempotent | controllers/authController.js:6-12 | filtering adds no key and filtering twice is filtering once |
| AuthController.NewAccount | controllers/authController.js:14-39 | a new account is an active legislator off the ledger, with the given names, email, wallet and a hash of the password |
| AuthController.Registro | controllers/authController.js:14-39 | reply and new store equal the registration specification |
| AuthController.RegistroEffect | controllers/authController.js:14-39 | a registered id is new and holds exactly the new account, which can log in with its password; a refusal changes nothing |
| AuthController.RegistroTwiceRejected | controllers/authController.js:14-39 | registering the same body twice is refused by the unique indexes |
| AuthController.RegistroPreserves | controllers/authController.js:14-39 | registration keeps the store valid and coherent |
| AuthController.Login | controllers/authController.js:41-73 | invalid input iff the `isEmail` check (routes/auth.js:32-40) fails or the password is empty; logged in iff the input is valid, a user was found, the password matches and the account is active; wrong credentials iff the input is valid and there is no user or the password is wrong |
| AuthController.EmailIdentifiesUser | models/User.js:18-27 | on a valid store an email identifies at most one user |
| AuthController.UpdateMe | controllers/authController.js:84-117 | reply and new store equal the profile-update specification |
| AuthController.UpdateMeOnlyProfile | controllers/authController.js:86-109 | a profile update never changes role, activity, wallet, ledger flag, password or dates; a body with a password is refused |
| AuthController.UpdateMeIgnoresOtherKeys | controllers/authController.js:94-103 | keys outside the allow-list have no effect |
| AuthController.UpdateMeNullNumero | controllers/authController.js:94-109 | an explicit `numeroLegislador: null` is stored as `null` and admitted iff no other user already stores `null` there; otherwise the duplicate key refuses it and nothing changes |
| AuthController.UpdateMePreserves | controllers/authController.js:84-117 | profile update keeps the store valid and coherent |
| AuthController.UpdatePassword | controllers/authController.js:119-148 | reply and new store equal the corrected password-change specification |
| AuthController.UpdatePasswordEffect | controllers/authController.js:121-144 | corrected schema (as written see StaleTokenAcceptedAsWritten): done iff the current password matches; then only the hash and change date move, the new password matches and no other does; else wrong password and nothing changes |
| AuthController.UpdatePasswordRevokesOldTokens | controllers/authController.js:143 | corrected schema (as written see StaleTokenAcceptedAsWritten): after the change, tokens issued two seconds earlier are stale and a token issued now is not |
| AuthController.UpdatePasswordPreserves | controllers/authController.js:119-148 | password change keeps the store valid and coherent |
| AuthController.StaleTokenAcceptedAsWritten | controllers/authController.js:143 | with the schema as written, the change date is dropped and no earlier token ever becomes stale |
| AuthController.DeleteMe | controllers/authController.js:150-157 | the new store equals the self-deactivation specification |
| AuthController.DeleteMeBlocksLogin | controllers/authController.js:150-157 | after deactivation only `isActive` changed and login with any password fails |
| AuthController.DeleteMePreserves | controllers/authController.js:150-157 | deactivation keeps the store valid and coherent |
| AuthMiddleware.DenialStatus | middleware/auth.js:33-91 | every refusal answers 401 except the unexpected failure, 500 |
| AuthMiddleware.Token | middleware/auth.js:28-31 | the second space-separated piece of a header starting with `Bearer`, none when absent or empty; its properties are in the four rows below |
| AuthMiddleware.TokenShape | middleware/auth.js:28-31 | a token is found only in a header starting with `Bearer`, and it is its second space-separated piece |
| AuthMiddleware.BearerRoundTrip | middleware/auth.js:28-31 | `Bearer <t>` yields `t` for any non-empty token without spaces |
| AuthMiddleware.OtherSchemeNoToken | middleware/auth.js:29 | a header with another scheme yields no token |
| AuthMiddleware.DoubleSpaceNoToken | middleware/auth.js:30 | `Bearer` followed by two spaces yields no token |
| AuthMiddleware.Protect | middleware/auth.js:25-93 | guard and new store equal the protect specification |
| AuthMiddleware.ProtectSpec | middleware/auth.js:25-93 | the protect steps in order (token, verifier, user exists, active, password not changed), then the login-time save; ProtectEffect below states each outcome |
| AuthMiddleware.NoTokenRefusedFirst | middleware/auth.js:33-38 | without a token the request is refused before the verifier is consulted |
| AuthMiddleware.ProtectEffect | middleware/auth.js:41-91 | one refusal per failed step, in order (malformed, expired, other failure, user gone, disabled, password changed); a refusal changes nothing; access saves only the login time |
| AuthMiddleware.ProtectGranted | middleware/auth.js:69-74 | on a valid store the login-time save is admitted |
| AuthMiddleware.ProtectPreserves | middleware/auth.js:25-93 | protect keeps the store valid and coherent |
| AuthMiddleware.ProtectAfterPasswordChange | middleware/auth.js:61-66 | after a corrected password change, a token issued two seconds earlier is refused as "password changed" |
| AuthMiddleware.ProtectAfterPasswordChangeAsWritten | middleware/auth.js:61-66 | with the schema as written, that same token is still granted |
| AuthMiddleware.RestrictTo | middleware/auth.js:95-105 | the request goes on iff the user's role is listed |
| AuthMiddleware.RestrictToRoles | middleware/auth.js:95-105 | admin-only admits exactly admins, legislator-only exactly legislators, both admit all, none admits no one |
| AuthMiddleware.VerificarLegisladorRegistrado | middleware/auth.js:107-115 | the request goes on iff the user is flagged registered on the ledger |
| AuthMiddleware.VoteRouteAdmits | routes/votaciones.js:34 | the vote route has no role check: a request `protect` granted comes from an active stored account, keeps that account's role, and is let through exactly when the stored account is flagged on the ledger, whatever its role (an admin so flagged passes too) |
| AuthMiddleware.EliminatedCannotVote | middleware/auth.js:107-115 | after removal from the ledger, the user's grant no longer passes the registration guard |
| AuthMiddleware.SoftDeletedLockedOut | middleware/auth.js:53-58 | after a soft delete, protect refuses the user as disabled |
| ErrorHandling.Built | middleware/errorHandler.js:1-23 | the corrected builders make operational errors with a status; as written they carry no status and are not operational |
| ErrorHandling.HandleCastErrorDB | middleware/errorHandler.js:1-4 | the cast message `Recurso inválido: <path>: <value>`, status 400 and operational when corrected, neither as written |
| ErrorHandling.HandleDuplicateFieldsDB | middleware/errorHandler.js:6-11 | the duplicate-key message, status 400 and operational when corrected, neither as written |
| ErrorHandling.HandleValidationErrorDB | middleware/errorHandler.js:13-17 | the validation message, status 400 and operational when corrected, neither as written |
| ErrorHandling.HandleJWTError | middleware/errorHandler.js:19-20 | the invalid-token message, status 401 and operational when corrected, neither as written |
| ErrorHandling.HandleJWTExpiredError | middleware/errorHandler.js:22-23 | the expired-token message, status 401 and operational when corrected, neither as written |
| ErrorHandling.LastKind | middleware/errorHandler.js:59-72 | the kind whose builder runs last when several rules apply: expired token, then invalid token, then validation, then duplicate key, then cast |
| ErrorHandling.Classified | middleware/errorHandler.js:52-85 | the rebuilt error, turned into an operational 400 for a ledger failure and overridden by the connection 503 |
| ErrorHandling.Respond | middleware/errorHandler.js:25-50 | development and operational errors answer their status (500 when missing) and message; other errors in production answer 500 with the generic message |
| ErrorHandling.StatusOr500 | middleware/errorHandler.js:26 | a missing or zero status becomes 500 and any other status is kept |
| ErrorHandling.ErrorHandler | middleware/errorHandler.js:52-92 | the response equals the classification under revision `rev`, answered in the chosen mode: `AsWritten` is the handler as the source has it, `Corrected` the one whose builders mark their errors operational |
| ErrorHandling.ConnectionOverrides | middleware/errorHandler.js:81-85 | a connection error answers 503 with the connection message whatever else matched |
| ErrorHandling.LedgerFailureIs400 | middleware/errorHandler.js:75-78 | an error mentioning the blockchain mark (and not a connection) answers 400 with the rebuilt error's message |
| ErrorHandling.WrappedLedgerFailureAnswered | middleware/errorHandler.js:75-78 | a wrapped ledger failure that reaches the handler as a plain error (no Mongoose or JWT kind) and whose cause does not mention `connection` answers 400 in production with the wrapped message |
| ErrorHandling.PlainErrorPassesThrough | middleware/errorHandler.js:87-91 | an unclassified operational error keeps its status and message; a non-operational one answers 500 with the generic message in production |
| ErrorHandling.BuilderMessagesHiddenAsWritten | middleware/errorHandler.js:36-48 | as written, every rebuilt Mongoose or JWT error answers 500 with the generic message in production |
| ErrorHandling.CastErrorHiddenAsWritten | middleware/errorHandler.js:1-4 | a concrete cast error answers 500 as written and 400 with the cast message when corrected |
| ErrorHandling.BuilderMessagesShown | middleware/errorHandler.js:36-48 | corrected, a rebuilt error answers its builder's status and message in production |
| ErrorHandling.RevisionsShareMessages | middleware/errorHandler.js:60-72 | both revisions build the same message; in development they differ only in the status |
| ErrorHandling.DuplicateMessageNamesFirstKey | middleware/errorHandler.js:6-11 | the duplicate message starts with the first key and its value; with no keys it names `undefined` |
| ErrorHandling.ValidationMessageListsAll | middleware/errorHandler.js:13-17 | the validation message starts with the prefix and includes every error message |

## Left out

- Mongoose `populate` projections, `toJSON` virtuals and JSON casting of ids and dates: the model stores ids as integers. The vote lookups compare them directly, which is the intended behaviour. As written, the populated records never match (Findings row 4). So `FindVoto`, `ObtenerVotoLegislador`, `Tally.Cast`, `RegistrarVoto`, `ObtenerMiVoto`, `ObtenerMisVotos` and `EstadisticasLegislador` follow the intended lookup, and `RevoteDuplicatesAsWritten` shows what the code as written does to a re-vote.
- LeyModel.SchemaValid: does not apply the `trim` of `titulo` and `descripcion` (models/Ley.js:14,20). Presence and `maxlength` are checked on the strings as given. So `SesionController.AgregarLey` stores a law whose title is only spaces, which the source refuses. `SesionController.UpdateLey` refuses a title at the limit with a trailing space, which the source accepts after trimming.
- SesionModel.SchemaValid: does not apply the `trim` of `titulo` and `descripcion` (models/Sesion.js:15,21). Presence and `maxlength` are checked on the strings as given. So `SesionController.CrearSesion` stores a session whose title is only spaces, which the source refuses. `SesionController.UpdateSesion` (through `SesionUpdateOk`) refuses a title at the limit with a trailing space, which the source accepts after trimming.
- UserModel.SchemaValid: does not check the e-mail `match` regular expression (models/User.js:23-26), only that an e-mail is present, and leaves out its `lowercase` (models/User.js:22). It does not apply the `trim` of `nombre`, `apellido`, `telefono`, `numeroLegislador`, `partido` and `distrito` (models/User.js:9,15,30,39,43,48) either: lengths and the presence of names are checked on the strings as given. The routes' `normalizeEmail()` (routes/auth.js:23,36) is not applied either: the model keeps the address as given, where the source lower-cases it and rewrites some providers' addresses (for example dropping Gmail dots and `+` suffixes). The wallet pattern is checked. The route's `isEmail` verdict is a parameter `emailOk` of `Registro` and `Login`.
- LegisladorController.GetLegislador: the response projection is not modelled. The view carries the whole stored user, password hash included, where the source drops it with `.select('-password')` (controllers/legisladorController.js:75) and `select: false` (models/User.js:65).
- SesionController.ActivarSesion: the ledger calls are represented by their outcomes only (`sessionCall`, and `calls(p)` for the law at position `p`). Their arguments are not recorded: `crearSesion(fecha, descripcion)` (controllers/sesionController.js:410-413) and `agregarLey(blockchainResult.sesionId, titulo, descripcion)` (controllers/sesionController.js:430-434). So the model does not state that each law is registered under the ledger id the session just received.
- SesionController.FinalizarSesion: the argument of `finalizarSesion(sesion.blockchainId)` (controllers/sesionController.js:496) is not recorded, only the call's outcome.
- LegisladorController.RegistrarEnBlockchain, LegisladorController.EliminarDeBlockchain and LegisladorController.DeleteLegislador: the wallet address the ledger calls receive (controllers/legisladorController.js:181,225,277) is not recorded, only each call's outcome. The membership queries do take the wallet (`Membership`).
- MongoId path validators, and ids that are not valid ObjectIds: the handlers model only existing and missing ids.
- Floating-point results: the `porcentaje*` virtuals (models/Ley.js:134-147), `participacion` in `getEstadisticasLegislador`, and the sort of its history.
- bcrypt and JWT are abstract: `HashPassword` is an injective stand-in, the verifier is a parameter, and `signToken`/`createSendToken` are not part of this model (their token contents are unobservable here).
- Clocks: `Date.now()` and `new Date()` are a parameter `now`.
- The outer `catch` blocks that answer 500 on unexpected exceptions, and `catchAsync`: only errors the model can produce are modelled.
- Concurrency between requests: every handler runs atomically on the store.
- web3 and the contract's internals: each call's outcome is a parameter.
- Read-only listings and statistics: `getAllSesiones`, `getSesion`, `getLeyesDeSesion`, `getSesionStats`, `getAllLegisladores`, `getLegisladorStats`, `obtenerResultados`, `getEstadisticasGenerales`, `getEstadisticasSesion`, `getHistorialMisVotos`, `getHistorialSesion`, `getMe`. They are aggregations and projections with no effect on the store.
- `updateLegislador`: an admin field update with the same shape as `updateMe`, which is modelled.
- `mapearEstadoVoto` on JavaScript prototype keys such as `toString`: the model treats them as unknown strings.
- The order in which the sync loops visit laws and users: the model visits them in an arbitrary order. The result does not depend on the order because each step touches one document.
- AuthController.UpdatePassword, AuthController.UpdateMe, AuthController.UpdateMeSpec, AuthController.DeleteMe and AuthController.DeleteMeSpec: require the signed-in user to exist. `protect` guarantees this for every caller, so the lookup failure is not modelled.
- `sendErrorDev`'s `error` and `stack` fields: only status and message are modelled.
- An error that matches two Mongoose kinds at once (the second builder reads a field the first dropped), and a `keyValue` or `errors` field that is absent: the model takes the highest-priority kind with both fields present.
- AuthMiddleware.Protect: the login-time save can fail only on the unique indexes, because `validateBeforeSave: false` skips the schema. The 500 catch of `verificarLegisladorRegistrado` (middleware/auth.js:116-121) cannot be reached in the model.
- SesionController.UpdateSesion: Mongoose's casting of update values is not modelled. A number given for a String path, a numeric string for a Number path such as `quorumRequerido: "60"`, and other castable values are refused with a save error. The source casts and stores them.
- SesionController.UpdateLey: the same casting gap. A number given for `titulo`, `descripcion` or `categoria` is refused. The source stores its string form.
- AuthController.UpdateMe: the same casting gap. A number such as `telefono: 5551234` is refused. The source stores `"5551234"`.
- Store.Valid: reads the law index as unique once on the ledger, which the index as declared implies. `AgregarLey` is modelled under both readings. The other saves never take a law off the ledger or move it to another session. So when every law was created under the declared reading, both readings admit the same saves on the stores reached.

## Findings

| source | as written | input that shows it | evidently intended | confidence | as-written member | corrected member |
|---|---|---|---|---|---|---|
| middleware/errorHandler.js:1-23 | the `handle*DB` and JWT builders return plain `Error`s with no status and no `isOperational`, so production answers 500 "Algo salió mal!" | a `CastError` on path `_id` with value `abc` in production | an operational error: 400 with the cast message (401 for JWT errors) | not executed | ErrorHandling.CastErrorHiddenAsWritten | ErrorHandling.BuilderMessagesShown |
| controllers/authController.js:143 | `passwordChangedAt` is set on the user but is not a field of the schema in models/User.js, so it is never stored and old tokens stay valid | change the password, then call a protected route with a token issued two seconds before | tokens issued before the change are refused | not executed | AuthMiddleware.ProtectAfterPasswordChangeAsWritten | AuthMiddleware.ProtectAfterPasswordChange |
| models/Ley.js:176 | the sparse unique index on `(blockchainId, sesion)` still indexes every law, because `sesion` is always set, so two draft laws of one session collide on `(null, sesion)` | add a second law to a session whose only law is still a draft | any number of draft laws per session | not executed | SesionController.SecondDraftLawRefusedAsDeclared | SesionController.AgregarEffect |
| controllers/votacionController.js:53 | the existing-vote lookup compares each record's `legislador` as a string with the user's id, but the `pre(/^find/)` hook (models/Ley.js:161-170) has populated `votos.legislador`, so the record side is a User document's text and never matches; the same comparison appears at votacionController.js:259, 292, 486 and 563 and models/Ley.js:156 | a legislator votes `A_FAVOR` on a law in voting, then votes `EN_CONTRA` on it | the earlier record is found and overwritten: one record per voter, and the `A_FAVOR` unit moves to `EN_CONTRA` (also: `miVoto` shows the vote, the statistics count it) | not executed | VoteTally.RevoteDuplicatesAsWritten | VoteTally.CastKeepsOneRecordPerVoter |
