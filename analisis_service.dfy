/**
 * The assessment engine (`AnalisisService`): a single picture-description analysis, a
 * questionnaire analysed in one call to the text-analysis model, and a full assessment that
 * aggregates the questionnaire into one record with a deterioration level, observations and
 * medical recommendations.
 *
 * Each operation is a function from the database snapshot before the call to the result and
 * the snapshot after it; the methods perform the same steps on an `AnalisisStore` and are
 * proved to end in exactly that state. Any failure aborts the whole call.
 */
module AnalisisService {
  import opened Wrappers
  import opened Entities
  import opened Ordering
  import opened Text
  import opened AnalisisRepository
  import opened GeminiService

  /** Why an operation of the engine throws. */
  datatype ErrorAnalisis =
    | FalloGemini(causa: ErrorGemini)                 // the text-analysis call threw
    | ResultadoNulo                                   // the decoded single answer was `null`
    | ResultadosNulos                                 // the questionnaire answer had no `resultados_preguntas`
    | ConteoDistinto(recibidos: nat, enviados: nat)   // "Gemini devolvió N resultados pero se enviaron M preguntas"
    | SinPreguntasProcesadas                          // "No se pudo procesar ninguna pregunta de la evaluación"
    | GuidInvalido(texto: string)                     // `Guid.Parse` threw

  // ---------------------------------------------------------------- baseline decision

  /**
   * The prior score given to the text analysis: none exactly when the patient has no active
   * baseline (the assessment is then a baseline assessment), otherwise that baseline's score.
   */
  function PuntajePrevio(bs: seq<LineaBase>, p: Id): Option<real>
  {
    var lb := ObtenerLineaBaseActiva(bs, p);
    if lb.None? then None else Some(lb.value.scoreGlobalInicial)
  }

  /** The prior score is the active baseline's, and is missing exactly when there is none. */
  lemma PuntajePrevioDeLaActiva(bs: seq<LineaBase>, p: Id)
    ensures var r := PuntajePrevio(bs, p);
      && (r.None? <==> forall i :: 0 <= i < |bs| ==> !ActivaDe(bs[i], p))
      && (r.Some? ==> exists i :: 0 <= i < |bs| && ActivaDe(bs[i], p) && r.value == bs[i].scoreGlobalInicial)
  {
    LineaBaseActivaMasReciente(bs, p);
  }

  /** The id of an optional baseline (`lineaBase?.Id`). */
  function IdDe(lb: Option<LineaBase>): Option<Id>
  {
    if lb.Some? then Some(lb.value.id) else None
  }

  // ---------------------------------------------------------------- records and responses

  /** The text of a baseline's notes. */
  function TextoNota(n: NotaLineaBase): string
  {
    match n
    case PrimeraEvaluacion => "Línea base establecida automáticamente - Primera evaluación del paciente"
    case PrimeraEvaluacionCon(k) =>
      "Línea base establecida automáticamente - Primera evaluación del paciente con " + NatToString(k) + " análisis"
  }

  const Estable: string := "estable"
  const Leve: string := "leve"
  const Moderado: string := "moderado"
  const Severo: string := "severo"

  /** `comparacion_con_baseline?.diferencia_score`. */
  function DiferenciaDe(c: Option<ComparacionBaseline>): Option<real>
  {
    if c.Some? then Some(c.value.diferenciaScore) else None
  }

  /** `comparacion_con_baseline?.deterioro_detectado`. */
  function DeterioroDe(c: Option<ComparacionBaseline>): Option<bool>
  {
    if c.Some? then Some(c.value.deterioroDetectado) else None
  }

  /** `comparacion_con_baseline?.nivel_cambio`. */
  function NivelDe(c: Option<ComparacionBaseline>): Option<string>
  {
    if c.Some? then c.value.nivelCambio else None
  }

  /** String interpolation of a nullable string: `null` renders as nothing. */
  function Interpolar(s: Option<string>): string
  {
    if s.Some? then s.value else []
  }

  /** The text of a response message. */
  function TextoMensaje(m: MensajeAnalisis): string
  {
    match m
    case LineaBaseEstablecida => "Línea base establecida correctamente - Primera evaluación del paciente"
    case LineaBaseCuestionario(k) =>
      "Línea base establecida correctamente - Evaluación con " + NatToString(k) + " análisis"
    case DeterioroDetectado(nivel) => "Deterioro cognitivo detectado - Nivel: " + Interpolar(nivel)
    case SinDeterioro => "Análisis de seguimiento completado - Sin signos de deterioro significativo"
  }

  /** The response message: the baseline message, the detected level, or "no deterioration". */
  function Mensaje(a: AnalisisCognitivo, mensajeLineaBase: MensajeAnalisis): MensajeAnalisis
  {
    if a.esLineaBase then mensajeLineaBase
    else if a.deterioroDetectado == Some(true) then DeterioroDetectado(a.nivelCambio)
    else SinDeterioro
  }

  /** The `AnalisisResponse` of a saved record; a missing comparison reads as "not detected, estable". */
  function Respuesta(a: AnalisisCognitivo, mensaje: MensajeAnalisis): AnalisisResponse
  {
    AnalisisResponse(a.id, a.pacienteId, a.imagenId, a.scoreSemantico, a.scoreObjetos, a.scoreAcciones,
      a.falsosObjetos, a.tiempoRespuestaSeg, a.coherenciaLinguistica, a.scoreGlobal, a.observaciones,
      ComparacionBaselineDto(a.diferenciaScore, a.deterioroDetectado == Some(true),
                             if a.nivelCambio.Some? then a.nivelCambio.value else Estable),
      a.esLineaBase, a.fechaAnalisis, mensaje)
  }

  /** The record of a single analysis, from the request and the decoded answer. */
  function RegistroUnico(id: Id, req: AnalisisRequest, g: GeminiAnalisis, esLineaBase: bool,
                         lineaBaseId: Option<Id>, now: Time): AnalisisCognitivo
  {
    AnalisisCognitivo(id, req.pacienteId, req.imagenId, req.descripcionPaciente, req.descripcionReal,
      ImagenMetadata(req.imagenId, now, None), g.scoreSemantico, g.scoreObjetos, g.scoreAcciones,
      g.falsosObjetos, g.tiempoRespuestaSeg, g.coherenciaLinguistica, g.scoreGlobal, g.observaciones,
      DiferenciaDe(g.comparacion), DeterioroDe(g.comparacion), NivelDe(g.comparacion),
      esLineaBase, lineaBaseId, now)
  }

  /**
   * The record of question `i` of a questionnaire: its scores come from result `i`, its
   * response time from the summary, and its comparison from the questionnaire-level one.
   */
  function RegistroPregunta(p: Id, req: AnalisisRequest, rp: ResultadoPreguntaGemini, c: GeminiCuestionario,
                            i: nat, id: Id, esLineaBase: bool, lineaBaseId: Option<Id>, now: Time): AnalisisCognitivo
    requires c.resumen.Some?
  {
    AnalisisCognitivo(id, p, req.imagenId, req.descripcionPaciente, req.descripcionReal,
      ImagenMetadata(req.imagenId, now, Some(i + 1)), rp.scoreSemantico, rp.scoreObjetos, rp.scoreAcciones,
      rp.falsosObjetos, c.resumen.value.tiempoRespuestaPromedioSeg, rp.coherenciaLinguistica, rp.scoreGlobal,
      rp.observaciones, DiferenciaDe(c.comparacion), DeterioroDe(c.comparacion), NivelDe(c.comparacion),
      esLineaBase, lineaBaseId, now)
  }

  /** A complete questionnaire answer: a summary, and one result per question. */
  predicate Completo(c: GeminiCuestionario, n: nat)
  {
    c.resumen.Some? && c.resultados.Some? && |c.resultados.value| == n
  }

  /** The records of a questionnaire, question `i` paired with result `i` and given id `base + i`. */
  function Registros(p: Id, reqs: seq<AnalisisRequest>, c: GeminiCuestionario, base: Id, esLineaBase: bool,
                     lineaBaseId: Option<Id>, now: Time): (rs: seq<AnalisisCognitivo>)
    requires Completo(c, |reqs|)
  {
    seq(|reqs|, i requires 0 <= i < |reqs| =>
      RegistroPregunta(p, reqs[i], c.resultados.value[i], c, i, base + i, esLineaBase, lineaBaseId, now))
  }

  /** The responses of the saved questionnaire records, in order. */
  function Respuestas(rs: seq<AnalisisCognitivo>, n: nat): seq<AnalisisResponse>
  {
    seq(|rs|, i requires 0 <= i < |rs| => Respuesta(rs[i], Mensaje(rs[i], LineaBaseCuestionario(n))))
  }

  function ScoreGlobalDe(r: ResultadoPreguntaGemini): real { r.scoreGlobal }

  // ---------------------------------------------------------------- single analysis

  /** `RealizarAnalisisAsync`, as a function of the database before the call. */
  function Analizar(t: Tablas, api: Gemini, json: ImagenMetadata -> string, req: AnalisisRequest, now: Time)
    : (Result<AnalisisResponse, ErrorAnalisis>, Tablas)
  {
    var g := AnalizarConGemini(api, req.descripcionPaciente, req.descripcionReal,
                               Some(json(ImagenMetadata(req.imagenId, now, None))),
                               PuntajePrevio(t.lineasBase, req.pacienteId));
    if g.Err? then (Err(FalloGemini(g.error)), t)
    else if g.value.None? then (Err(ResultadoNulo), t)
    else
      var (resp, t1) := GuardarAnalisis(t, req, g.value.value, ObtenerLineaBaseActiva(t.lineasBase, req.pacienteId), now);
      (Ok(resp), t1)
  }

  /**
   * The successful end of `RealizarAnalisisAsync`: the record takes the next id; without an
   * active baseline the following id goes to a new baseline holding the record's global score.
   */
  function GuardarAnalisis(t: Tablas, req: AnalisisRequest, gem: GeminiAnalisis, lb: Option<LineaBase>, now: Time)
    : (AnalisisResponse, Tablas)
  {
    var es := lb.None?;
    var a := RegistroUnico(t.nextId, req, gem, es, if es then Some(t.nextId + 1) else IdDe(lb), now);
    var bs := if es then ConLineaBase(t.lineasBase, NuevaLineaBase(t.nextId + 1, req.pacienteId, gem.scoreGlobal, now, PrimeraEvaluacion))
              else t.lineasBase;
    (Respuesta(a, Mensaje(a, LineaBaseEstablecida)),
     Tablas(bs, t.analisis + [a], t.evaluaciones, if es then t.nextId + 2 else t.nextId + 1))
  }

  /**
   * `RealizarAnalisisAsync`: decides baseline or follow-up, asks the text-analysis model,
   * sets a baseline from the global score when there is none, saves the record and responds.
   */
  method RealizarAnalisis(store: AnalisisStore, api: Gemini, json: ImagenMetadata -> string,
                          req: AnalisisRequest, now: Time) returns (r: Result<AnalisisResponse, ErrorAnalisis>)
    modifies store
    ensures (r, store.Estado()) == Analizar(old(store.Estado()), api, json, req, now)
  {
    var lb := ObtenerLineaBaseActiva(store.lineasBase, req.pacienteId);
    var previo := PuntajePrevio(store.lineasBase, req.pacienteId);
    var metadata := ImagenMetadata(req.imagenId, now, None);
    var g := AnalizarConGemini(api, req.descripcionPaciente, req.descripcionReal, Some(json(metadata)), previo);
    if g.Err? {
      return Err(FalloGemini(g.error));
    }
    if g.value.None? {
      return Err(ResultadoNulo);
    }
    var resp := GuardarAnalisisUnico(store, req, g.value.value, lb, now);
    r := Ok(resp);
  }

  /** The part of `RealizarAnalisisAsync` after the model's answer: the baseline, the record, the response. */
  method GuardarAnalisisUnico(store: AnalisisStore, req: AnalisisRequest, gem: GeminiAnalisis, lb: Option<LineaBase>,
                              now: Time) returns (resp: AnalisisResponse)
    modifies store
    ensures (resp, store.Estado()) == GuardarAnalisis(old(store.Estado()), req, gem, lb, now)
  {
    ghost var t0 := store.Estado();
    var esLineaBase := lb.None?;
    var id := store.NuevoId();
    var a := RegistroUnico(id, req, gem, esLineaBase, IdDe(lb), now);
    if esLineaBase {
      var bid := store.NuevoId();
      var b := NuevaLineaBase(bid, req.pacienteId, gem.scoreGlobal, now, PrimeraEvaluacion);
      var creada := store.CrearLineaBase(b);
      a := a.(lineaBaseId := Some(creada.id));
      assert store.Estado() == Tablas(ConLineaBase(t0.lineasBase, b), t0.analisis, t0.evaluaciones, t0.nextId + 2);
    } else {
      assert store.Estado() == t0.(nextId := t0.nextId + 1);
    }
    assert a == RegistroUnico(t0.nextId, req, gem, esLineaBase, if esLineaBase then Some(t0.nextId + 1) else IdDe(lb), now);
    var guardado := store.CrearAnalisis(a);
    resp := Respuesta(guardado, Mensaje(guardado, LineaBaseEstablecida));
  }

  /** A failed single analysis writes nothing, and it fails exactly when the model's answer is unusable. */
  lemma AnalizarFallaSinCambios(t: Tablas, api: Gemini, json: ImagenMetadata -> string, req: AnalisisRequest, now: Time)
    ensures var g := AnalizarConGemini(api, req.descripcionPaciente, req.descripcionReal,
                                       Some(json(ImagenMetadata(req.imagenId, now, None))),
                                       PuntajePrevio(t.lineasBase, req.pacienteId));
      Analizar(t, api, json, req, now).0.Err? <==> g.Err? || g.value.None?
    ensures Analizar(t, api, json, req, now).0.Err? ==> Analizar(t, api, json, req, now).1 == t
  {
  }

  /**
   * A successful single analysis appends one record; it creates a baseline exactly when the
   * patient had no active one, with the record's global score, and links the record to it;
   * otherwise the record is linked to the existing baseline and no baseline changes.
   */
  lemma AnalizarLineaBase(t: Tablas, api: Gemini, json: ImagenMetadata -> string, req: AnalisisRequest, now: Time)
    requires Analizar(t, api, json, req, now).0.Ok?
    ensures var (r, t2) := Analizar(t, api, json, req, now);
      var lb := ObtenerLineaBaseActiva(t.lineasBase, req.pacienteId);
      var a := t2.analisis[|t.analisis|];
      && |t2.analisis| == |t.analisis| + 1 && t2.analisis[..|t.analisis|] == t.analisis
      && t2.evaluaciones == t.evaluaciones
      && a.id == r.value.analisisId && a.scoreGlobal == r.value.scoreGlobal
      && (a.esLineaBase <==> lb.None?)
      && (lb.None? ==> (&& |t2.lineasBase| == |t.lineasBase| + 1
                        && a.lineaBaseId.Some?
                        && var b := t2.lineasBase[|t.lineasBase|];
                           && ObtenerLineaBaseActiva(t2.lineasBase, req.pacienteId) == Some(b)
                           && b.id == a.lineaBaseId.value && b.scoreGlobalInicial == a.scoreGlobal))
      && (lb.Some? ==> t2.lineasBase == t.lineasBase && a.lineaBaseId == Some(lb.value.id))
  {
    var t2 := Analizar(t, api, json, req, now).1;
    var lb := ObtenerLineaBaseActiva(t.lineasBase, req.pacienteId);
    assert t2.analisis[..|t.analisis|] == t.analisis;
    if lb.None? {
      var b := t2.lineasBase[|t.lineasBase|];
      CrearLineaBaseEsLaActiva(t.lineasBase, b);
    }
  }

  /** A single analysis keeps "the active baseline of a patient is its last one". */
  lemma AnalizarPreserva(t: Tablas, api: Gemini, json: ImagenMetadata -> string, req: AnalisisRequest, now: Time)
    requires ActivaEsLaUltima(t.lineasBase)
    ensures ActivaEsLaUltima(Analizar(t, api, json, req, now).1.lineasBase)
  {
    var t2 := Analizar(t, api, json, req, now).1;
    if t2.lineasBase != t.lineasBase {
      CrearLineaBasePreserva(t.lineasBase, t2.lineasBase[|t.lineasBase|]);
    }
  }

  // ---------------------------------------------------------------- questionnaire

  /** `RealizarAnalisisMultipleAsync`, as a function of the database before the call. */
  function AnalizarMultiple(t: Tablas, api: Gemini, reqs: seq<AnalisisRequest>, p: Id, now: Time)
    : (Result<seq<AnalisisResponse>, ErrorAnalisis>, Tablas)
  {
    var lb := ObtenerLineaBaseActiva(t.lineasBase, p);
    var es := lb.None?;
    var c := RespuestaCuestionario(api, PromptCuestionarioDe(reqs, PuntajePrevio(t.lineasBase, p)));
    if c.Err? then (Err(FalloGemini(c.error)), t)
    else if c.value.resultados.None? then (Err(ResultadosNulos), t)
    else if |c.value.resultados.value| != |reqs| then (Err(ConteoDistinto(|c.value.resultados.value|, |reqs|)), t)
    else GuardarCuestionario(t, reqs, c.value, lb, p, now)
  }

  /**
   * The successful end of `RealizarAnalisisMultipleAsync`: the records take the next `n` ids;
   * without an active baseline (and with at least one question) the following id goes to a
   * new baseline holding the mean global score, which every record points to.
   */
  function GuardarCuestionario(t: Tablas, reqs: seq<AnalisisRequest>, c: GeminiCuestionario,
                               lb: Option<LineaBase>, p: Id, now: Time)
    : (Result<seq<AnalisisResponse>, ErrorAnalisis>, Tablas)
    requires Completo(c, |reqs|)
  {
    var n := |reqs|;
    var es := lb.None?;
    var nueva := es && n > 0;
    var bid := t.nextId + n;
    var rs := Registros(p, reqs, c, t.nextId, es, if nueva then Some(bid) else IdDe(lb), now);
    var bs := if nueva then ConLineaBase(t.lineasBase, NuevaLineaBase(bid, p, MeanOf(c.resultados.value, ScoreGlobalDe),
                                                                       now, PrimeraEvaluacionCon(n)))
              else t.lineasBase;
    (Ok(Respuestas(rs, n)), Tablas(bs, t.analisis + rs, t.evaluaciones, if nueva then bid + 1 else bid))
  }

  /** Re-pointing every record of a questionnaire at another baseline. */
  lemma RegistrosVinculados(p: Id, reqs: seq<AnalisisRequest>, c: GeminiCuestionario, base: Id, es: bool,
                            lbId: Option<Id>, id: Id, now: Time, gs: seq<AnalisisCognitivo>)
    requires Completo(c, |reqs|)
    requires |gs| == |reqs|
    requires forall k :: 0 <= k < |gs| ==>
      gs[k] == Registros(p, reqs, c, base, es, lbId, now)[k].(lineaBaseId := Some(id))
    ensures gs == Registros(p, reqs, c, base, es, Some(id), now)
  {
  }

  /**
   * `RealizarAnalisisMultipleAsync`: one call for the whole questionnaire; checks the answer
   * has one result per question, prepares the records, sets a baseline from the mean
   * global score (back-filling every record's baseline id) when there is none, then saves
   * the records one by one.
   */
  method RealizarAnalisisMultiple(store: AnalisisStore, api: Gemini, reqs: seq<AnalisisRequest>, p: Id, now: Time)
    returns (r: Result<seq<AnalisisResponse>, ErrorAnalisis>)
    modifies store
    ensures (r, store.Estado()) == AnalizarMultiple(old(store.Estado()), api, reqs, p, now)
  {
    ghost var t0 := store.Estado();
    var lb := ObtenerLineaBaseActiva(store.lineasBase, p);
    var esLineaBase := lb.None?;
    var previo := PuntajePrevio(store.lineasBase, p);
    var respuesta := AnalizarCuestionarioCompleto(api, reqs, previo);
    if respuesta.Err? {
      return Err(FalloGemini(respuesta.error));
    }
    var c := respuesta.value;
    if c.resultados.None? {
      return Err(ResultadosNulos);
    }
    var res := c.resultados.value;
    if |res| != |reqs| {
      return Err(ConteoDistinto(|res|, |reqs|));
    }
    assert AnalizarMultiple(t0, api, reqs, p, now) == GuardarCuestionario(t0, reqs, c, lb, p, now);
    r := GuardarCuestionarioCompleto(store, reqs, c, lb, p, now);
  }

  /**
   * The part of `RealizarAnalisisMultipleAsync` after the answer is checked: prepares the
   * records, creates the baseline and back-fills its id when there is none, saves the records.
   */
  method GuardarCuestionarioCompleto(store: AnalisisStore, reqs: seq<AnalisisRequest>, c: GeminiCuestionario,
                                     lb: Option<LineaBase>, p: Id, now: Time)
    returns (r: Result<seq<AnalisisResponse>, ErrorAnalisis>)
    requires Completo(c, |reqs|)
    modifies store
    ensures (r, store.Estado()) == GuardarCuestionario(old(store.Estado()), reqs, c, lb, p, now)
  {
    ghost var t0 := store.Estado();
    var esLineaBase := lb.None?;
    var n := |reqs|;
    var guardados, suma := PrepararRegistros(store, p, reqs, c, esLineaBase, IdDe(lb), now);
    if esLineaBase && n > 0 {
      var promedio := suma / (n as real);
      var bid := store.NuevoId();
      var creada := store.CrearLineaBase(NuevaLineaBase(bid, p, promedio, now, PrimeraEvaluacionCon(n)));
      var vinculados := VincularLineaBase(guardados, creada.id);
      RegistrosVinculados(p, reqs, c, t0.nextId, esLineaBase, IdDe(lb), bid, now, vinculados);
      guardados := vinculados;
    }
    r := GuardarRegistros(store, guardados, n);
  }

  /**
   * The preparation loop of `RealizarAnalisisMultipleAsync`: one fresh record per question,
   * and the running sum of the global scores.
   */
  method PrepararRegistros(store: AnalisisStore, p: Id, reqs: seq<AnalisisRequest>, c: GeminiCuestionario,
                           esLineaBase: bool, lineaBaseId: Option<Id>, now: Time)
    returns (guardados: seq<AnalisisCognitivo>, suma: real)
    requires Completo(c, |reqs|)
    modifies store
    ensures guardados == Registros(p, reqs, c, old(store.nextId), esLineaBase, lineaBaseId, now)
    ensures suma == SumOf(c.resultados.value, ScoreGlobalDe)
    ensures store.Estado() == old(store.Estado()).(nextId := old(store.nextId) + |reqs|)
  {
    ghost var t0 := store.Estado();
    ghost var todos := Registros(p, reqs, c, t0.nextId, esLineaBase, lineaBaseId, now);
    var res := c.resultados.value;
    guardados := [];
    suma := 0.0;
    for i := 0 to |reqs|
      invariant store.lineasBase == t0.lineasBase && store.analisis == t0.analisis
      invariant store.evaluaciones == t0.evaluaciones && store.nextId == t0.nextId + i
      invariant guardados == todos[..i]
      invariant suma == SumOf(res[..i], ScoreGlobalDe)
    {
      var id := store.NuevoId();
      guardados := guardados + [RegistroPregunta(p, reqs[i], res[i], c, i, id, esLineaBase, lineaBaseId, now)];
      PrefixSnoc(todos, i);
      SumOfPrefix(res, i, ScoreGlobalDe);
      suma := suma + res[i].scoreGlobal;
    }
    assert res[..|reqs|] == res;
    assert todos[..|reqs|] == todos;
  }

  /** The back-fill loop: every prepared record gets the new baseline's id. */
  method VincularLineaBase(gs: seq<AnalisisCognitivo>, id: Id) returns (r: seq<AnalisisCognitivo>)
    ensures |r| == |gs|
    ensures forall k :: 0 <= k < |r| ==> r[k] == gs[k].(lineaBaseId := Some(id))
  {
    r := gs;
    for i := 0 to |gs|
      invariant |r| == |gs|
      invariant forall k :: 0 <= k < i ==> r[k] == gs[k].(lineaBaseId := Some(id))
      invariant forall k :: i <= k < |gs| ==> r[k] == gs[k]
    {
      r := r[i := r[i].(lineaBaseId := Some(id))];
    }
  }

  /** The saving loop: each record is appended in order and answered. */
  method GuardarRegistros(store: AnalisisStore, gs: seq<AnalisisCognitivo>, n: nat)
    returns (r: Result<seq<AnalisisResponse>, ErrorAnalisis>)
    modifies store
    ensures r == Ok(Respuestas(gs, n))
    ensures store.Estado() == old(store.Estado()).(analisis := old(store.analisis) + gs)
  {
    ghost var t1 := store.Estado();
    ghost var todas := Respuestas(gs, n);
    var resultados: seq<AnalisisResponse> := [];
    for i := 0 to |gs|
      invariant store.lineasBase == t1.lineasBase && store.evaluaciones == t1.evaluaciones
      invariant store.nextId == t1.nextId && store.analisis == t1.analisis + gs[..i]
      invariant resultados == todas[..i]
    {
      var g := store.CrearAnalisis(gs[i]);
      PrefixSnoc(gs, i);
      PrefixSnoc(todas, i);
      resultados := resultados + [Respuesta(g, Mensaje(g, LineaBaseCuestionario(n)))];
    }
    assert gs[..|gs|] == gs;
    assert todas[..|gs|] == todas;
    r := Ok(resultados);
  }

  /**
   * A successful questionnaire is the saving step applied to the model's complete answer;
   * every failure writes nothing.
   */
  lemma AnalizarMultipleGuarda(t: Tablas, api: Gemini, reqs: seq<AnalisisRequest>, p: Id, now: Time)
    ensures var c := RespuestaCuestionario(api, PromptCuestionarioDe(reqs, PuntajePrevio(t.lineasBase, p)));
      var (m, t1) := AnalizarMultiple(t, api, reqs, p, now);
      && (m.Err? ==> t1 == t)
      && (m.Ok? ==> && c.Ok? && Completo(c.value, |reqs|)
                    && (m, t1) == GuardarCuestionario(t, reqs, c.value, ObtenerLineaBaseActiva(t.lineasBase, p), p, now))
  {
  }

  /** An empty questionnaire writes nothing. */
  lemma GuardarCuestionarioVacio(t: Tablas, c: GeminiCuestionario, lb: Option<LineaBase>, p: Id, now: Time)
    requires Completo(c, 0)
    ensures GuardarCuestionario(t, [], c, lb, p, now) == (Ok([]), t)
  {
    var rs := Registros(p, [], c, t.nextId, lb.None?, IdDe(lb), now);
    assert rs == [];
    assert Respuestas(rs, 0) == [];
    assert t.analisis + rs == t.analisis;
  }

  function RespuestaGlobalDe(a: AnalisisResponse): real { a.scoreGlobal }

  /**
   * Saving a questionnaire appends one record per question, in order, with fresh ids;
   * response `i` describes record `i`; and every response carries the same deterioration
   * flag, the questionnaire-level one.
   */
  lemma GuardarCuestionarioRegistros(t: Tablas, reqs: seq<AnalisisRequest>, c: GeminiCuestionario,
                                     lb: Option<LineaBase>, p: Id, now: Time)
    requires Completo(c, |reqs|)
    ensures var (m, t1) := GuardarCuestionario(t, reqs, c, lb, p, now);
      var k := |t.analisis|;
      && m.Ok? && |m.value| == |reqs| && |t1.analisis| == k + |reqs| && t1.analisis[..k] == t.analisis
      && t1.evaluaciones == t.evaluaciones && t1.nextId >= t.nextId + |reqs|
      && (forall i :: 0 <= i < |reqs| ==>
            && t1.analisis[k + i].id == t.nextId + i && m.value[i].analisisId == t1.analisis[k + i].id
            && t1.analisis[k + i].pacienteId == p && t1.analisis[k + i].imagenId == reqs[i].imagenId
            && m.value[i].scoreGlobal == t1.analisis[k + i].scoreGlobal
            && m.value[i].comparacion.deterioroDetectado == m.value[0].comparacion.deterioroDetectado)
  {
    var (m, t1) := GuardarCuestionario(t, reqs, c, lb, p, now);
    assert t1.analisis[..|t.analisis|] == t.analisis;
  }

  /**
   * Without an active baseline, a non-empty questionnaire creates one for the patient with the
   * mean global score of its responses, makes it the active one, and marks every new record
   * as a baseline record pointing to it.
   */
  lemma GuardarCuestionarioLineaBaseNueva(t: Tablas, reqs: seq<AnalisisRequest>, c: GeminiCuestionario,
                                          p: Id, now: Time)
    requires Completo(c, |reqs|) && |reqs| > 0
    ensures var (m, t1) := GuardarCuestionario(t, reqs, c, None, p, now);
      && |t1.lineasBase| == |t.lineasBase| + 1
      && var b := t1.lineasBase[|t.lineasBase|];
         && b.pacienteId == p && b.id == t.nextId + |reqs|
         && ObtenerLineaBaseActiva(t1.lineasBase, p) == Some(b)
         && b.scoreGlobalInicial == MeanOf(m.value, RespuestaGlobalDe)
         && forall i :: |t.analisis| <= i < |t1.analisis| ==>
              t1.analisis[i].esLineaBase && t1.analisis[i].lineaBaseId == Some(b.id)
  {
    NuevaLineaBaseActiva(t, reqs, c, p, now);
    NuevaLineaBaseMedia(t, reqs, c, p, now);
    NuevaLineaBaseVinculada(t, reqs, c, p, now);
  }

  /** The baseline a first questionnaire appends is the patient's active one. */
  lemma NuevaLineaBaseActiva(t: Tablas, reqs: seq<AnalisisRequest>, c: GeminiCuestionario, p: Id, now: Time)
    requires Completo(c, |reqs|) && |reqs| > 0
    ensures var t1 := GuardarCuestionario(t, reqs, c, None, p, now).1;
      && |t1.lineasBase| == |t.lineasBase| + 1
      && t1.lineasBase[|t.lineasBase|].pacienteId == p && t1.lineasBase[|t.lineasBase|].id == t.nextId + |reqs|
      && ObtenerLineaBaseActiva(t1.lineasBase, p) == Some(t1.lineasBase[|t.lineasBase|])
  {
    var n := |reqs|;
    var b := NuevaLineaBase(t.nextId + n, p, MeanOf(c.resultados.value, ScoreGlobalDe), now, PrimeraEvaluacionCon(n));
    CrearLineaBaseEsLaActiva(t.lineasBase, b);
  }

  /** The baseline a first questionnaire appends holds the mean global score of its responses. */
  lemma NuevaLineaBaseMedia(t: Tablas, reqs: seq<AnalisisRequest>, c: GeminiCuestionario, p: Id, now: Time)
    requires Completo(c, |reqs|) && |reqs| > 0
    ensures var (m, t1) := GuardarCuestionario(t, reqs, c, None, p, now);
      |t1.lineasBase| > |t.lineasBase| && |m.value| == |reqs|
      && t1.lineasBase[|t.lineasBase|].scoreGlobalInicial == MeanOf(m.value, RespuestaGlobalDe)
  {
    var n := |reqs|;
    var m := Respuestas(Registros(p, reqs, c, t.nextId, true, Some(t.nextId + n), now), n);
    RespuestasMedia(p, reqs, c, t.nextId, true, Some(t.nextId + n), now);
    assert |m| == n == |c.resultados.value|;
    assert MeanOf(m, RespuestaGlobalDe) == MeanOf(c.resultados.value, ScoreGlobalDe);
    assert GuardarCuestionario(t, reqs, c, None, p, now).0.value == m;
  }

  /** The responses of a questionnaire carry the global scores of the model's results. */
  lemma RespuestasMedia(p: Id, reqs: seq<AnalisisRequest>, c: GeminiCuestionario, base: Id, es: bool,
                        lbId: Option<Id>, now: Time)
    requires Completo(c, |reqs|)
    ensures var m := Respuestas(Registros(p, reqs, c, base, es, lbId, now), |reqs|);
      SumOf(m, RespuestaGlobalDe) == SumOf(c.resultados.value, ScoreGlobalDe)
  {
    var m := Respuestas(Registros(p, reqs, c, base, es, lbId, now), |reqs|);
    SumOfPointwise(c.resultados.value, m, ScoreGlobalDe, RespuestaGlobalDe);
  }

  /** Every record of a first questionnaire is a baseline record pointing to the new baseline. */
  lemma NuevaLineaBaseVinculada(t: Tablas, reqs: seq<AnalisisRequest>, c: GeminiCuestionario, p: Id, now: Time)
    requires Completo(c, |reqs|) && |reqs| > 0
    ensures var t1 := GuardarCuestionario(t, reqs, c, None, p, now).1;
      forall i :: |t.analisis| <= i < |t1.analisis| ==>
        t1.analisis[i].esLineaBase && t1.analisis[i].lineaBaseId == Some(t.nextId + |reqs|)
  {
  }

  /** With an active baseline, a questionnaire changes no baseline and every new record points to it. */
  lemma GuardarCuestionarioLineaBaseExistente(t: Tablas, reqs: seq<AnalisisRequest>, c: GeminiCuestionario,
                                              lb: LineaBase, p: Id, now: Time)
    requires Completo(c, |reqs|)
    ensures var t1 := GuardarCuestionario(t, reqs, c, Some(lb), p, now).1;
      && t1.lineasBase == t.lineasBase
      && forall i :: |t.analisis| <= i < |t1.analisis| ==>
           !t1.analisis[i].esLineaBase && t1.analisis[i].lineaBaseId == Some(lb.id)
  {
  }

  /** A questionnaire keeps "the active baseline of a patient is its last one". */
  lemma AnalizarMultiplePreserva(t: Tablas, api: Gemini, reqs: seq<AnalisisRequest>, p: Id, now: Time)
    requires ActivaEsLaUltima(t.lineasBase)
    ensures ActivaEsLaUltima(AnalizarMultiple(t, api, reqs, p, now).1.lineasBase)
  {
    AnalizarMultipleGuarda(t, api, reqs, p, now);
    var t1 := AnalizarMultiple(t, api, reqs, p, now).1;
    if t1.lineasBase != t.lineasBase {
      CrearLineaBasePreserva(t.lineasBase, t1.lineasBase[|t.lineasBase|]);
    }
  }

  // ---------------------------------------------------------------- full assessment: summaries

  /** "More than half" of the processed questions flagged deterioration (`c > n / 2`). */
  function Mayoria(conDeterioro: nat, procesadas: nat): (r: bool)
    ensures r <==> 2 * conDeterioro > procesadas
  {
    conDeterioro > procesadas / 2
  }

  /** `DeterminarNivelDeterioroGeneral`: the level from the mean global score, when deterioration was flagged. */
  function DeterminarNivelDeterioroGeneral(scorePromedio: real, deterioroDetectado: bool): string
  {
    if !deterioroDetectado || scorePromedio >= 80.0 then Estable
    else if scorePromedio >= 70.0 then Leve
    else if scorePromedio >= 50.0 then Moderado
    else Severo
  }

  /** Each level covers exactly its band of mean scores; without deterioration the level is `estable`. */
  lemma NivelSii(score: real, det: bool)
    ensures var nivel := DeterminarNivelDeterioroGeneral(score, det);
      && (nivel == Estable <==> !det || score >= 80.0)
      && (nivel == Leve <==> det && 70.0 <= score < 80.0)
      && (nivel == Moderado <==> det && 50.0 <= score < 70.0)
      && (nivel == Severo <==> det && score < 50.0)
  {
  }

  /** The rank of a level, from `estable` (0) to `severo` (3). */
  function Severidad(nivel: string): nat
  {
    if nivel == Leve then 1 else if nivel == Moderado then 2 else if nivel == Severo then 3 else 0
  }

  /** A lower mean score never gives a milder level. */
  lemma NivelMonotono(a: real, b: real, det: bool)
    requires a <= b
    ensures Severidad(DeterminarNivelDeterioroGeneral(b, det)) <= Severidad(DeterminarNivelDeterioroGeneral(a, det))
  {
  }

  function GlobalDe(r: ResultadoPregunta): real { r.scoreGlobal }
  function SemanticoDe(r: ResultadoPregunta): real { r.scoreSemantico }
  function ObjetosDe(r: ResultadoPregunta): real { r.scoreObjetos }
  function AccionesDe(r: ResultadoPregunta): real { r.scoreAcciones }
  function CoherenciaDe(r: ResultadoPregunta): real { r.coherenciaLinguistica }
  predicate ConDeterioroDe(r: ResultadoPregunta) { r.deterioroDetectado }

  /** The deterioration line of the observations, present when some question flagged it. */
  function LineaDeterioro(conDeterioro: nat, total: nat): seq<LineaObservacion>
  {
    if conDeterioro > 0 then [ConDeterioro(conDeterioro, total)] else []
  }

  /** The best and the hardest question: the last and the first of the ascending order. */
  function LineasExtremos(ordenados: seq<ResultadoPregunta>): seq<LineaObservacion>
  {
    if |ordenados| > 0 then
      [MejorDesempeno(ordenados[|ordenados| - 1].idPicture, ordenados[|ordenados| - 1].scoreGlobal),
       MayorDificultad(ordenados[0].idPicture, ordenados[0].scoreGlobal)]
    else []
  }

  /**
   * `GenerarObservacionesGenerales`: the count and mean lines, a deterioration line, and the
   * best and the hardest question by global score after a stable ascending sort.
   */
  function GenerarObservacionesGenerales(rs: seq<ResultadoPregunta>, scorePromedio: real, deterioroDetectado: bool)
    : seq<LineaObservacion>
  {
    [Completada(|rs|), ScorePromedio(scorePromedio)]
    + LineaDeterioro(CountWhere(rs, ConDeterioroDe), |rs|)
    + LineasExtremos(SortBy(rs, GlobalDe))
  }

  /**
   * The observations name the question count and the mean, then the deterioration line, then
   * the last question with the highest global score and the first one with the lowest.
   */
  lemma ObservacionesGenerales(rs: seq<ResultadoPregunta>, score: real, det: bool)
    requires |rs| > 0
    ensures var alto := rs[ArgMaxLast(rs, GlobalDe)];
      var bajo := rs[ArgMinFirst(rs, GlobalDe)];
      GenerarObservacionesGenerales(rs, score, det)
        == [Completada(|rs|), ScorePromedio(score)] + LineaDeterioro(CountWhere(rs, ConDeterioroDe), |rs|)
           + [MejorDesempeno(alto.idPicture, alto.scoreGlobal), MayorDificultad(bajo.idPicture, bajo.scoreGlobal)]
  {
    SortByFirst(rs, GlobalDe);
    SortByLast(rs, GlobalDe);
  }

  /** The observations report deterioration exactly when some question flagged it, with their count. */
  lemma ObservacionesDeterioro(rs: seq<ResultadoPregunta>)
    ensures var l := LineaDeterioro(CountWhere(rs, ConDeterioroDe), |rs|);
      && (l != [] <==> exists i :: 0 <= i < |rs| && rs[i].deterioroDetectado)
      && (l != [] ==> l == [ConDeterioro(CountWhere(rs, ConDeterioroDe), |rs|)])
  {
  }

  /** The text of a recommendation line. */
  function TextoRecomendacion(r: Recomendacion): string
  {
    match r
    case FuncionEstable => "✅ Función cognitiva estable."
    case ContinuarSeguimiento => "• Continuar con evaluaciones periódicas de seguimiento."
    case MantenerEstimulacion => "• Mantener actividades de estimulación cognitiva."
    case DeterioroLeve => "⚠️ Deterioro cognitivo leve detectado."
    case ConsultaNeurologo => "• Recomendar consulta con neurólogo."
    case EvaluacionMensual => "• Incrementar frecuencia de evaluaciones (mensual)."
    case TerapiaEstimulacion => "• Iniciar terapia de estimulación cognitiva."
    case DeterioroModerado => "⚠️ Deterioro cognitivo moderado detectado."
    case DerivacionUrgente => "• URGENTE: Derivación a especialista en neurología."
    case EvaluacionNeuropsicologica => "• Evaluación neuropsicológica completa recomendada."
    case ImagenCerebral => "• Considerar estudios de imagen cerebral."
    case PlanIntervencion => "• Iniciar plan de intervención terapéutica."
    case DeterioroSevero => "🚨 Deterioro cognitivo severo detectado."
    case ConsultaUrgente => "• URGENTE: Consulta neurológica inmediata."
    case DiagnosticoDemencia => "• Evaluación para posible diagnóstico de demencia."
    case EstudiosComplementarios => "• Considerar estudios complementarios (TAC/MRI)."
    case ActividadesDiarias => "• Evaluación de capacidades para actividades diarias."
    case ApoyoFamilia => "• Apoyo para familia y cuidadores."
  }

  /** `GenerarRecomendacionesMedicas`: the plan of a level, line by line; an unknown level gives none. */
  function GenerarRecomendacionesMedicas(nivelDeterioro: string, scorePromedio: real, deterioroDetectado: bool)
    : seq<Recomendacion>
  {
    if nivelDeterioro == Estable then [FuncionEstable, ContinuarSeguimiento, MantenerEstimulacion]
    else if nivelDeterioro == Leve then [DeterioroLeve, ConsultaNeurologo, EvaluacionMensual, TerapiaEstimulacion]
    else if nivelDeterioro == Moderado then
      [DeterioroModerado, DerivacionUrgente, EvaluacionNeuropsicologica, ImagenCerebral, PlanIntervencion]
    else if nivelDeterioro == Severo then
      [DeterioroSevero, ConsultaUrgente, DiagnosticoDemencia, EstudiosComplementarios, ActividadesDiarias, ApoyoFamilia]
    else []
  }

  /** The two lines whose text is marked "URGENTE". */
  predicate Urgente(r: Recomendacion)
  {
    r == DerivacionUrgente || r == ConsultaUrgente
  }

  /**
   * Every level the classifier gives has a plan, one line longer per step of severity, and
   * the plan holds an urgent referral exactly when deterioration was flagged with a mean
   * score below 70.
   */
  lemma RecomendacionesSegunNivel(score: real, det: bool)
    ensures var nivel := DeterminarNivelDeterioroGeneral(score, det);
      var recs := GenerarRecomendacionesMedicas(nivel, score, det);
      && |recs| == 3 + Severidad(nivel)
      && ((exists i :: 0 <= i < |recs| && Urgente(recs[i])) <==> det && score < 70.0)
  {
    var nivel := DeterminarNivelDeterioroGeneral(score, det);
    var recs := GenerarRecomendacionesMedicas(nivel, score, det);
    if det && score < 70.0 {
      assert Urgente(recs[1]);
    }
  }

  // ---------------------------------------------------------------- full assessment

  /**
   * The questions of a full assessment as analysis requests (`Select(p => new AnalisisRequest
   * { ... })`); `Guid.Parse` of the first unparsable picture id throws.
   */
  function Convertir(p: Id, ps: seq<PreguntaEvaluacion>, parse: string -> Option<Id>)
    : Result<seq<AnalisisRequest>, ErrorAnalisis>
  {
    if ps == [] then Ok([])
    else
      var id := parse(ps[0].idPicture);
      if id.None? then Err(GuidInvalido(ps[0].idPicture))
      else
        var resto := Convertir(p, ps[1..], parse);
        if resto.Err? then resto
        else Ok([AnalisisRequest(p, id.value, ps[0].pacienteRespuesta, ps[0].descripcionReal)] + resto.value)
  }

  /**
   * The conversion succeeds exactly when every picture id parses, with one request per
   * question in order; otherwise it reports the first picture id that does not.
   */
  lemma {:induction false} ConvertirSii(p: Id, ps: seq<PreguntaEvaluacion>, parse: string -> Option<Id>)
    ensures var r := Convertir(p, ps, parse);
      && (r.Ok? <==> forall i :: 0 <= i < |ps| ==> parse(ps[i].idPicture).Some?)
      && (r.Ok? ==> |r.value| == |ps| && forall i :: 0 <= i < |ps| ==>
            r.value[i] == AnalisisRequest(p, parse(ps[i].idPicture).value, ps[i].pacienteRespuesta, ps[i].descripcionReal))
      && (r.Err? ==> exists i :: 0 <= i < |ps| && parse(ps[i].idPicture).None? && r.error == GuidInvalido(ps[i].idPicture)
                                 && forall j :: 0 <= j < i ==> parse(ps[j].idPicture).Some?)
  {
    if ps != [] && parse(ps[0].idPicture).Some? {
      ConvertirSii(p, ps[1..], parse);
      var resto := Convertir(p, ps[1..], parse);
      if resto.Err? {
        var i :| 0 <= i < |ps[1..]| && parse(ps[1..][i].idPicture).None? && resto.error == GuidInvalido(ps[1..][i].idPicture)
                 && forall j :: 0 <= j < i ==> parse(ps[1..][j].idPicture).Some?;
        assert ps[i + 1] == ps[1..][i];
        forall j | 0 <= j < i + 1 ensures parse(ps[j].idPicture).Some? {
          if j > 0 { assert ps[j] == ps[1..][j - 1]; }
        }
      } else {
        forall i | 0 <= i < |ps| ensures parse(ps[i].idPicture).Some? {
          if i > 0 { assert ps[i] == ps[1..][i - 1]; }
        }
      }
    }
  }

  /** The `ResultadoPregunta` of question `q` and the response of its analysis. */
  function ResultadoDe(q: PreguntaEvaluacion, a: AnalisisResponse): ResultadoPregunta
  {
    ResultadoPregunta(q.idPicture, a.analisisId, q.imagenUrl, q.descripcionReal, q.pacienteRespuesta,
      a.scoreGlobal, a.scoreSemantico, a.scoreObjetos, a.scoreAcciones, a.falsosObjetos, a.coherenciaLinguistica,
      a.observaciones, a.comparacion.nivelCambio, a.comparacion.deterioroDetectado)
  }

  /** The individual results: question `i` with response `i`, as long as both lists last. */
  function Resultados(qs: seq<PreguntaEvaluacion>, as_: seq<AnalisisResponse>): seq<ResultadoPregunta>
  {
    var n := if |as_| < |qs| then |as_| else |qs|;
    seq(n, i requires 0 <= i < n => ResultadoDe(qs[i], as_[i]))
  }

  /** The response time every full assessment records. */
  const TiempoRespuestaPorDefecto: real := 30.0

  /**
   * The record of a full assessment from its individual results: the means, the majority
   * verdict, the level, the difference with the prior baseline, the observations and the
   * recommendations, pointing to the baseline `lineaBaseId`.
   */
  function Evaluacion(id: Id, p: Id, cuidador: Id, req: EvaluacionCompletaRequest, rs: seq<ResultadoPregunta>,
                      lb: Option<LineaBase>, lineaBaseId: Option<Id>, now: Time): EvaluacionCompleta
    requires |rs| > 0
  {
    var g := MeanOf(rs, GlobalDe);
    var det := Mayoria(CountWhere(rs, ConDeterioroDe), |rs|);
    var nivel := DeterminarNivelDeterioroGeneral(g, det);
    EvaluacionCompleta(id, p, cuidador, req.fechaRealizacion, |req.preguntas|, |rs|, g, MeanOf(rs, SemanticoDe),
      MeanOf(rs, ObjetosDe), MeanOf(rs, AccionesDe), MeanOf(rs, CoherenciaDe), TiempoRespuestaPorDefecto, det, nivel,
      if lb.Some? then Some(g - lb.value.scoreGlobalInicial) else None,
      GenerarObservacionesGenerales(rs, g, det), GenerarRecomendacionesMedicas(nivel, g, det),
      lb.None?, lineaBaseId, now)
  }

  /** The response of a saved full assessment. */
  function RespuestaEvaluacion(e: EvaluacionCompleta, rs: seq<ResultadoPregunta>): EvaluacionCompletaResponse
  {
    EvaluacionCompletaResponse(e.id, e.pacienteId, e.cuidadorId, e.fechaEvaluacion, e.totalPreguntas,
      e.preguntasProcesadas, e.scoreGlobalPromedio, e.scoreSemanticoPromedio, e.scoreObjetosPromedio,
      e.scoreAccionesPromedio, e.coherenciaPromedio, e.tiempoRespuestaPromedio, e.deterioroDetectado,
      e.nivelDeterioroGeneral, e.diferenciaConLineaBase, rs, e.observacionesGenerales, e.recomendacionesMedicas,
      e.esLineaBase, e.lineaBaseId, e.fechaCreacion)
  }

  /** `ProcesarEvaluacionCompletaAsync`, as a function of the database before the call. */
  function ProcesarEvaluacion(t: Tablas, api: Gemini, parse: string -> Option<Id>, req: EvaluacionCompletaRequest,
                              now: Time): (Result<EvaluacionCompletaResponse, ErrorAnalisis>, Tablas)
  {
    var pid := parse(req.idPaciente);
    var cid := parse(req.idCuidador);
    if pid.None? then (Err(GuidInvalido(req.idPaciente)), t)
    else if cid.None? then (Err(GuidInvalido(req.idCuidador)), t)
    else
      var lb := ObtenerLineaBaseActiva(t.lineasBase, pid.value);
      var reqs := Convertir(pid.value, req.preguntas, parse);
      if reqs.Err? then (Err(reqs.error), t)
      else
        var (m, t1) := AnalizarMultiple(t, api, reqs.value, pid.value, now);
        if m.Err? then (Err(m.error), t1)
        else
          var lbId := if lb.None? then IdDe(ObtenerLineaBaseActiva(t1.lineasBase, pid.value)) else IdDe(lb);
          Evaluar(t1, pid.value, cid.value, req, m.value, lb, lbId, now)
  }

  /**
   * The end of `ProcesarEvaluacionCompletaAsync`, after the questionnaire is saved: with no
   * result it throws, otherwise the assessment record, pointing to baseline `lbId`, takes
   * the next id and is appended.
   */
  function Evaluar(t1: Tablas, p: Id, cuidador: Id, req: EvaluacionCompletaRequest, resps: seq<AnalisisResponse>,
                   lb: Option<LineaBase>, lbId: Option<Id>, now: Time)
    : (Result<EvaluacionCompletaResponse, ErrorAnalisis>, Tablas)
  {
    var rs := Resultados(req.preguntas, resps);
    if |rs| == 0 then (Err(SinPreguntasProcesadas), t1)
    else
      var e := Evaluacion(t1.nextId, p, cuidador, req, rs, lb, lbId, now);
      (Ok(RespuestaEvaluacion(e, rs)), t1.(evaluaciones := t1.evaluaciones + [e], nextId := t1.nextId + 1))
  }

  /** Aggregating fails, writing nothing, exactly when there is no question or no response. */
  lemma EvaluarFalla(t1: Tablas, p: Id, cuidador: Id, req: EvaluacionCompletaRequest, resps: seq<AnalisisResponse>,
                     lb: Option<LineaBase>, lbId: Option<Id>, now: Time)
    ensures var (r, t2) := Evaluar(t1, p, cuidador, req, resps, lb, lbId, now);
      && (r.Err? <==> resps == [] || req.preguntas == [])
      && (r.Err? ==> r.error == SinPreguntasProcesadas && t2 == t1)
  {
  }

  /**
   * A successful aggregation appends exactly one assessment, with a fresh id, and answers
   * with that record's data; the results pair question `i` with response `i`.
   */
  lemma EvaluarGuarda(t1: Tablas, p: Id, cuidador: Id, req: EvaluacionCompletaRequest, resps: seq<AnalisisResponse>,
                      lb: Option<LineaBase>, lbId: Option<Id>, now: Time)
    requires Evaluar(t1, p, cuidador, req, resps, lb, lbId, now).0.Ok?
    ensures var (r, t2) := Evaluar(t1, p, cuidador, req, resps, lb, lbId, now);
      var rs := r.value.resultadosIndividuales;
      && |t2.evaluaciones| == |t1.evaluaciones| + 1 && t2.evaluaciones[..|t1.evaluaciones|] == t1.evaluaciones
      && t2.lineasBase == t1.lineasBase && t2.analisis == t1.analisis && t2.nextId == t1.nextId + 1
      && (var e := t2.evaluaciones[|t1.evaluaciones|];
          && e.id == t1.nextId && r.value == RespuestaEvaluacion(e, rs)
          && e.pacienteId == p && e.cuidadorId == cuidador && e.fechaEvaluacion == req.fechaRealizacion)
      && |rs| == (if |resps| < |req.preguntas| then |resps| else |req.preguntas|)
      && r.value.totalPreguntas == |req.preguntas| && r.value.preguntasProcesadas == |rs|
      && forall i :: 0 <= i < |rs| ==>
           && rs[i].idPicture == req.preguntas[i].idPicture && rs[i].analisisId == resps[i].analisisId
           && rs[i].scoreGlobal == resps[i].scoreGlobal
           && rs[i].deterioroDetectado == resps[i].comparacion.deterioroDetectado
  {
    var t2 := Evaluar(t1, p, cuidador, req, resps, lb, lbId, now).1;
    assert t2.evaluaciones[..|t1.evaluaciones|] == t1.evaluaciones;
  }

  /**
   * The assessment's verdict: the means of the results, deterioration when more than half of
   * them flagged it, the level of the mean, the difference with the prior baseline's score,
   * and the baseline it points to.
   */
  lemma EvaluarResumen(t1: Tablas, p: Id, cuidador: Id, req: EvaluacionCompletaRequest, resps: seq<AnalisisResponse>,
                       lb: Option<LineaBase>, lbId: Option<Id>, now: Time)
    requires Evaluar(t1, p, cuidador, req, resps, lb, lbId, now).0.Ok?
    ensures var r := Evaluar(t1, p, cuidador, req, resps, lb, lbId, now).0.value;
      var rs := r.resultadosIndividuales;
      && |rs| > 0
      && r.scoreGlobalPromedio == MeanOf(rs, GlobalDe) && r.coherenciaPromedio == MeanOf(rs, CoherenciaDe)
      && (r.deterioroDetectado <==> 2 * CountWhere(rs, ConDeterioroDe) > |rs|)
      && r.nivelDeterioroGeneral == DeterminarNivelDeterioroGeneral(r.scoreGlobalPromedio, r.deterioroDetectado)
      && r.recomendacionesMedicas == GenerarRecomendacionesMedicas(r.nivelDeterioroGeneral, r.scoreGlobalPromedio,
                                                                   r.deterioroDetectado)
      && r.observacionesGenerales == GenerarObservacionesGenerales(rs, r.scoreGlobalPromedio, r.deterioroDetectado)
      && r.tiempoRespuestaPromedio == TiempoRespuestaPorDefecto
      && r.esLineaBase == lb.None? && r.lineaBaseId == lbId
      && r.diferenciaConLineaBase == (if lb.Some? then Some(r.scoreGlobalPromedio - lb.value.scoreGlobalInicial) else None)
  {
  }

  /** The assessment's mean global score lies within the range of its responses' global scores. */
  lemma EvaluarPromedioAcotado(t1: Tablas, p: Id, cuidador: Id, req: EvaluacionCompletaRequest,
                               resps: seq<AnalisisResponse>, lb: Option<LineaBase>, lbId: Option<Id>, now: Time,
                               lo: real, hi: real)
    requires Evaluar(t1, p, cuidador, req, resps, lb, lbId, now).0.Ok?
    requires forall i :: 0 <= i < |resps| ==> lo <= resps[i].scoreGlobal <= hi
    ensures lo <= Evaluar(t1, p, cuidador, req, resps, lb, lbId, now).0.value.scoreGlobalPromedio <= hi
  {
    EvaluarGuarda(t1, p, cuidador, req, resps, lb, lbId, now);
    EvaluarResumen(t1, p, cuidador, req, resps, lb, lbId, now);
    MeanOfBounds(Evaluar(t1, p, cuidador, req, resps, lb, lbId, now).0.value.resultadosIndividuales, GlobalDe, lo, hi);
  }

  /** When every result carries the same deterioration flag, the majority vote is that flag. */
  lemma MayoriaUnanime(rs: seq<ResultadoPregunta>, d: bool)
    requires |rs| > 0
    requires forall i :: 0 <= i < |rs| ==> rs[i].deterioroDetectado == d
    ensures Mayoria(CountWhere(rs, ConDeterioroDe), |rs|) == d
  {
    if d {
      CountWhereAll(rs, ConDeterioroDe);
    }
  }

  /** The steps of a successful full assessment: the ids parse, the questionnaire succeeds, the aggregation follows. */
  lemma ProcesarPasos(t: Tablas, api: Gemini, parse: string -> Option<Id>, req: EvaluacionCompletaRequest, now: Time)
    returns (p: Id, cuidador: Id, reqs: seq<AnalisisRequest>, m: seq<AnalisisResponse>, t1: Tablas,
             lb: Option<LineaBase>, lbId: Option<Id>)
    requires ProcesarEvaluacion(t, api, parse, req, now).0.Ok?
    ensures parse(req.idPaciente) == Some(p) && parse(req.idCuidador) == Some(cuidador)
    ensures lb == ObtenerLineaBaseActiva(t.lineasBase, p)
    ensures Convertir(p, req.preguntas, parse) == Ok(reqs) && |reqs| == |req.preguntas|
    ensures AnalizarMultiple(t, api, reqs, p, now) == (Ok(m), t1)
    ensures lbId == if lb.None? then IdDe(ObtenerLineaBaseActiva(t1.lineasBase, p)) else IdDe(lb)
    ensures ProcesarEvaluacion(t, api, parse, req, now) == Evaluar(t1, p, cuidador, req, m, lb, lbId, now)
  {
    p := parse(req.idPaciente).value;
    cuidador := parse(req.idCuidador).value;
    lb := ObtenerLineaBaseActiva(t.lineasBase, p);
    reqs := Convertir(p, req.preguntas, parse).value;
    ConvertirSii(p, req.preguntas, parse);
    var (r, t') := AnalizarMultiple(t, api, reqs, p, now);
    m, t1 := r.value, t';
    lbId := if lb.None? then IdDe(ObtenerLineaBaseActiva(t1.lineasBase, p)) else IdDe(lb);
  }

  /** A failed full assessment writes nothing: a failure after the questionnaire means it was empty. */
  lemma ProcesarFallaSinCambios(t: Tablas, api: Gemini, parse: string -> Option<Id>, req: EvaluacionCompletaRequest,
                                now: Time)
    ensures ProcesarEvaluacion(t, api, parse, req, now).0.Err? ==> ProcesarEvaluacion(t, api, parse, req, now).1 == t
  {
    var pid := parse(req.idPaciente);
    var cid := parse(req.idCuidador);
    if pid.Some? && cid.Some? && Convertir(pid.value, req.preguntas, parse).Ok? {
      var p := pid.value;
      var reqs := Convertir(p, req.preguntas, parse).value;
      ConvertirSii(p, req.preguntas, parse);
      AnalizarMultipleGuarda(t, api, reqs, p, now);
      var (m, t1) := AnalizarMultiple(t, api, reqs, p, now);
      if m.Ok? {
        var c := RespuestaCuestionario(api, PromptCuestionarioDe(reqs, PuntajePrevio(t.lineasBase, p)));
        var lb := ObtenerLineaBaseActiva(t.lineasBase, p);
        var lbId := if lb.None? then IdDe(ObtenerLineaBaseActiva(t1.lineasBase, p)) else IdDe(lb);
        EvaluarFalla(t1, p, cid.value, req, m.value, lb, lbId, now);
        GuardarCuestionarioRegistros(t, reqs, c.value, lb, p, now);
        if reqs == [] {
          GuardarCuestionarioVacio(t, c.value, lb, p, now);
        }
      }
    }
  }

  /**
   * A successful full assessment processes every question, appends one analysis record per
   * question and one assessment record, and its response describes that assessment.
   */
  lemma ProcesarCompleto(t: Tablas, api: Gemini, parse: string -> Option<Id>, req: EvaluacionCompletaRequest, now: Time)
    requires ProcesarEvaluacion(t, api, parse, req, now).0.Ok?
    ensures var (r, t2) := ProcesarEvaluacion(t, api, parse, req, now);
      && |req.preguntas| > 0 && |r.value.resultadosIndividuales| == |req.preguntas|
      && r.value.totalPreguntas == |req.preguntas| && r.value.preguntasProcesadas == |req.preguntas|
      && |t2.analisis| == |t.analisis| + |req.preguntas| && t2.analisis[..|t.analisis|] == t.analisis
      && |t2.evaluaciones| == |t.evaluaciones| + 1 && t2.evaluaciones[..|t.evaluaciones|] == t.evaluaciones
      && r.value == RespuestaEvaluacion(t2.evaluaciones[|t.evaluaciones|], r.value.resultadosIndividuales)
  {
    var p, cuidador, reqs, m, t1, lb, lbId := ProcesarPasos(t, api, parse, req, now);
    AnalizarMultipleGuarda(t, api, reqs, p, now);
    var c := RespuestaCuestionario(api, PromptCuestionarioDe(reqs, PuntajePrevio(t.lineasBase, p))).value;
    GuardarCuestionarioRegistros(t, reqs, c, lb, p, now);
    EvaluarFalla(t1, p, cuidador, req, m, lb, lbId, now);
    EvaluarGuarda(t1, p, cuidador, req, m, lb, lbId, now);
  }

  /**
   * In a successful full assessment, result `i` reports the analysis record created for
   * question `i`: its picture, its id and its global score, for the patient.
   */
  lemma ProcesarResultados(t: Tablas, api: Gemini, parse: string -> Option<Id>, req: EvaluacionCompletaRequest,
                           now: Time)
    requires ProcesarEvaluacion(t, api, parse, req, now).0.Ok?
    ensures var (r, t2) := ProcesarEvaluacion(t, api, parse, req, now);
      var k := |t.analisis|;
      var rs := r.value.resultadosIndividuales;
      && |t2.analisis| == k + |rs|
      && forall i :: 0 <= i < |rs| ==>
           && rs[i].idPicture == req.preguntas[i].idPicture && rs[i].analisisId == t2.analisis[k + i].id
           && rs[i].scoreGlobal == t2.analisis[k + i].scoreGlobal
           && parse(req.preguntas[i].idPicture) == Some(t2.analisis[k + i].imagenId)
           && parse(req.idPaciente) == Some(t2.analisis[k + i].pacienteId)
  {
    var p, cuidador, reqs, m, t1, lb, lbId := ProcesarPasos(t, api, parse, req, now);
    AnalizarMultipleGuarda(t, api, reqs, p, now);
    var c := RespuestaCuestionario(api, PromptCuestionarioDe(reqs, PuntajePrevio(t.lineasBase, p))).value;
    CuestionarioEvaluadoResultados(t, reqs, c, m, t1, lb, p, cuidador, req, lbId, now);
    ConvertirImagenes(p, req.preguntas, parse);
  }

  /** Each converted request carries the parsed picture id of its question. */
  lemma ConvertirImagenes(p: Id, ps: seq<PreguntaEvaluacion>, parse: string -> Option<Id>)
    requires Convertir(p, ps, parse).Ok?
    ensures var reqs := Convertir(p, ps, parse).value;
      && |reqs| == |ps|
      && forall i :: 0 <= i < |ps| ==> parse(ps[i].idPicture) == Some(reqs[i].imagenId)
  {
    ConvertirSii(p, ps, parse);
  }

  /** Result `i` of an evaluated questionnaire reports the analysis saved for request `i`. */
  lemma CuestionarioEvaluadoResultados(t: Tablas, reqs: seq<AnalisisRequest>, c: GeminiCuestionario,
                                       m: seq<AnalisisResponse>, t1: Tablas, lb: Option<LineaBase>, p: Id, cuidador: Id,
                                       req: EvaluacionCompletaRequest, lbId: Option<Id>, now: Time)
    requires Completo(c, |reqs|) && GuardarCuestionario(t, reqs, c, lb, p, now) == (Ok(m), t1)
    requires Evaluar(t1, p, cuidador, req, m, lb, lbId, now).0.Ok?
    ensures var (r, t2) := Evaluar(t1, p, cuidador, req, m, lb, lbId, now);
      var k := |t.analisis|;
      var rs := r.value.resultadosIndividuales;
      && |rs| == (if |reqs| < |req.preguntas| then |reqs| else |req.preguntas|) && |t2.analisis| == k + |reqs|
      && forall i :: 0 <= i < |rs| ==>
           && rs[i].idPicture == req.preguntas[i].idPicture && rs[i].analisisId == t2.analisis[k + i].id
           && rs[i].scoreGlobal == t2.analisis[k + i].scoreGlobal
           && t2.analisis[k + i].imagenId == reqs[i].imagenId && t2.analisis[k + i].pacienteId == p
  {
    GuardarCuestionarioRegistros(t, reqs, c, lb, p, now);
    EvaluarGuarda(t1, p, cuidador, req, m, lb, lbId, now);
  }

  /**
   * The questionnaire of a full assessment carries one deterioration flag for all its
   * results, so the majority verdict of the assessment is that flag.
   */
  lemma ProcesarDeterioroUnanime(t: Tablas, api: Gemini, parse: string -> Option<Id>, req: EvaluacionCompletaRequest,
                                 now: Time)
    requires ProcesarEvaluacion(t, api, parse, req, now).0.Ok?
    ensures var r := ProcesarEvaluacion(t, api, parse, req, now).0.value;
      forall i :: 0 <= i < |r.resultadosIndividuales| ==>
        r.resultadosIndividuales[i].deterioroDetectado == r.deterioroDetectado
  {
    var p, cuidador, reqs, m, t1, lb, lbId := ProcesarPasos(t, api, parse, req, now);
    AnalizarMultipleGuarda(t, api, reqs, p, now);
    var c := RespuestaCuestionario(api, PromptCuestionarioDe(reqs, PuntajePrevio(t.lineasBase, p))).value;
    CuestionarioEvaluadoUnanime(t, reqs, c, m, t1, lb, p, cuidador, req, lbId, now);
  }

  /** The aggregation of a saved questionnaire gives the verdict every one of its results carries. */
  lemma CuestionarioEvaluadoUnanime(t: Tablas, reqs: seq<AnalisisRequest>, c: GeminiCuestionario,
                                    m: seq<AnalisisResponse>, t1: Tablas, lb: Option<LineaBase>, p: Id, cuidador: Id,
                                    req: EvaluacionCompletaRequest, lbId: Option<Id>, now: Time)
    requires Completo(c, |reqs|) && GuardarCuestionario(t, reqs, c, lb, p, now) == (Ok(m), t1)
    requires Evaluar(t1, p, cuidador, req, m, lb, lbId, now).0.Ok?
    ensures var r := Evaluar(t1, p, cuidador, req, m, lb, lbId, now).0.value;
      forall i :: 0 <= i < |r.resultadosIndividuales| ==>
        r.resultadosIndividuales[i].deterioroDetectado == r.deterioroDetectado
  {
    GuardarCuestionarioUniforme(t, reqs, c, lb, p, now);
    EvaluarUnanime(t1, p, cuidador, req, m, lb, lbId, now, m[0].comparacion.deterioroDetectado);
  }

  /** The responses GuardarCuestionario builds all carry the answer's single deterioration flag. */
  lemma GuardarCuestionarioUniforme(t: Tablas, reqs: seq<AnalisisRequest>, c: GeminiCuestionario,
                                    lb: Option<LineaBase>, p: Id, now: Time)
    requires Completo(c, |reqs|)
    ensures var m := GuardarCuestionario(t, reqs, c, lb, p, now).0;
      && m.Ok? && |m.value| == |reqs|
      && forall i :: 0 <= i < |m.value| ==>
           m.value[i].comparacion.deterioroDetectado == m.value[0].comparacion.deterioroDetectado
  {
    GuardarCuestionarioRegistros(t, reqs, c, lb, p, now);
  }

  /** When every response carries the same flag d, every evaluated question and the verdict carry d. */
  lemma EvaluarUnanime(t1: Tablas, p: Id, cuidador: Id, req: EvaluacionCompletaRequest, resps: seq<AnalisisResponse>,
                       lb: Option<LineaBase>, lbId: Option<Id>, now: Time, d: bool)
    requires Evaluar(t1, p, cuidador, req, resps, lb, lbId, now).0.Ok?
    requires forall i :: 0 <= i < |resps| ==> resps[i].comparacion.deterioroDetectado == d
    ensures var r := Evaluar(t1, p, cuidador, req, resps, lb, lbId, now).0.value;
      && r.deterioroDetectado == d
      && forall i :: 0 <= i < |r.resultadosIndividuales| ==> r.resultadosIndividuales[i].deterioroDetectado == d
  {
    EvaluarGuarda(t1, p, cuidador, req, resps, lb, lbId, now);
    EvaluarResumen(t1, p, cuidador, req, resps, lb, lbId, now);
    var r := Evaluar(t1, p, cuidador, req, resps, lb, lbId, now).0.value;
    MayoriaUnanime(r.resultadosIndividuales, d);
  }

  /**
   * A patient's first full assessment is a baseline: it creates the patient's active
   * baseline with the assessment's mean global score, points to it, and has no difference.
   */
  lemma ProcesarLineaBaseNueva(t: Tablas, api: Gemini, parse: string -> Option<Id>, req: EvaluacionCompletaRequest,
                               now: Time)
    requires ProcesarEvaluacion(t, api, parse, req, now).0.Ok?
    requires ObtenerLineaBaseActiva(t.lineasBase, parse(req.idPaciente).value).None?
    ensures var (r, t2) := ProcesarEvaluacion(t, api, parse, req, now);
      && |t2.lineasBase| == |t.lineasBase| + 1
      && var b := t2.lineasBase[|t.lineasBase|];
         && parse(req.idPaciente) == Some(b.pacienteId)
         && ObtenerLineaBaseActiva(t2.lineasBase, b.pacienteId) == Some(b)
         && b.scoreGlobalInicial == r.value.scoreGlobalPromedio
         && r.value.esLineaBase && r.value.lineaBaseId == Some(b.id) && r.value.diferenciaConLineaBase.None?
  {
    var p, cuidador, reqs, m, t1, lb, lbId := ProcesarPasos(t, api, parse, req, now);
    AnalizarMultipleGuarda(t, api, reqs, p, now);
    var c := RespuestaCuestionario(api, PromptCuestionarioDe(reqs, PuntajePrevio(t.lineasBase, p))).value;
    GuardarCuestionarioRegistros(t, reqs, c, lb, p, now);
    GuardarCuestionarioLineaBaseNueva(t, reqs, c, p, now);
    EvaluarFalla(t1, p, cuidador, req, m, lb, lbId, now);
    EvaluarGuarda(t1, p, cuidador, req, m, lb, lbId, now);
    EvaluarResumen(t1, p, cuidador, req, m, lb, lbId, now);
    var rs := Evaluar(t1, p, cuidador, req, m, lb, lbId, now).0.value.resultadosIndividuales;
    SumOfPointwise(m, rs, RespuestaGlobalDe, GlobalDe);
  }

  /**
   * A follow-up full assessment points to the patient's active baseline, reports the
   * difference with its score, and changes no baseline.
   */
  lemma ProcesarSeguimiento(t: Tablas, api: Gemini, parse: string -> Option<Id>, req: EvaluacionCompletaRequest,
                            now: Time)
    requires ProcesarEvaluacion(t, api, parse, req, now).0.Ok?
    requires ObtenerLineaBaseActiva(t.lineasBase, parse(req.idPaciente).value).Some?
    ensures var r := ProcesarEvaluacion(t, api, parse, req, now).0.value;
      var lb := ObtenerLineaBaseActiva(t.lineasBase, parse(req.idPaciente).value).value;
      && ProcesarEvaluacion(t, api, parse, req, now).1.lineasBase == t.lineasBase
      && !r.esLineaBase && r.lineaBaseId == Some(lb.id)
      && r.diferenciaConLineaBase.Some? && r.diferenciaConLineaBase.value == r.scoreGlobalPromedio - lb.scoreGlobalInicial
  {
    var p, cuidador, reqs, m, t1, lb, lbId := ProcesarPasos(t, api, parse, req, now);
    AnalizarMultipleGuarda(t, api, reqs, p, now);
    var c := RespuestaCuestionario(api, PromptCuestionarioDe(reqs, PuntajePrevio(t.lineasBase, p))).value;
    CuestionarioEvaluadoSeguimiento(t, reqs, c, m, t1, lb, lbId, p, cuidador, req, now);
  }

  /** The aggregation of a follow-up questionnaire points to the baseline it was compared with. */
  lemma CuestionarioEvaluadoSeguimiento(t: Tablas, reqs: seq<AnalisisRequest>, c: GeminiCuestionario,
                                        m: seq<AnalisisResponse>, t1: Tablas, lb: Option<LineaBase>, lbId: Option<Id>,
                                        p: Id, cuidador: Id, req: EvaluacionCompletaRequest, now: Time)
    requires lb.Some? && lbId == Some(lb.value.id)
    requires Completo(c, |reqs|) && GuardarCuestionario(t, reqs, c, lb, p, now) == (Ok(m), t1)
    requires Evaluar(t1, p, cuidador, req, m, lb, lbId, now).0.Ok?
    ensures var (r, t2) := Evaluar(t1, p, cuidador, req, m, lb, lbId, now);
      && t2.lineasBase == t.lineasBase
      && !r.value.esLineaBase && r.value.lineaBaseId == Some(lb.value.id)
      && r.value.diferenciaConLineaBase == Some(r.value.scoreGlobalPromedio - lb.value.scoreGlobalInicial)
  {
    GuardarCuestionarioLineaBaseExistente(t, reqs, c, lb.value, p, now);
    EvaluarGuarda(t1, p, cuidador, req, m, lb, lbId, now);
    EvaluarResumen(t1, p, cuidador, req, m, lb, lbId, now);
  }

  /** A full assessment keeps "the active baseline of a patient is its last one". */
  lemma ProcesarPreserva(t: Tablas, api: Gemini, parse: string -> Option<Id>, req: EvaluacionCompletaRequest, now: Time)
    requires ActivaEsLaUltima(t.lineasBase)
    ensures ActivaEsLaUltima(ProcesarEvaluacion(t, api, parse, req, now).1.lineasBase)
  {
    if ProcesarEvaluacion(t, api, parse, req, now).0.Ok? {
      var p, cuidador, reqs, m, t1, lb, lbId := ProcesarPasos(t, api, parse, req, now);
      AnalizarMultiplePreserva(t, api, reqs, p, now);
      EvaluarFalla(t1, p, cuidador, req, m, lb, lbId, now);
      EvaluarGuarda(t1, p, cuidador, req, m, lb, lbId, now);
    } else {
      ProcesarFallaSinCambios(t, api, parse, req, now);
    }
  }

  /**
   * `ProcesarEvaluacionCompletaAsync`: parses the ids, decides baseline or follow-up, runs the
   * questionnaire analysis, then aggregates the results into one saved assessment.
   */
  method ProcesarEvaluacionCompleta(store: AnalisisStore, api: Gemini, parse: string -> Option<Id>,
                                    req: EvaluacionCompletaRequest, now: Time)
    returns (r: Result<EvaluacionCompletaResponse, ErrorAnalisis>)
    modifies store
    ensures (r, store.Estado()) == ProcesarEvaluacion(old(store.Estado()), api, parse, req, now)
  {
    ghost var t0 := store.Estado();
    var pacienteId := parse(req.idPaciente);
    if pacienteId.None? {
      return Err(GuidInvalido(req.idPaciente));
    }
    var cuidadorId := parse(req.idCuidador);
    if cuidadorId.None? {
      return Err(GuidInvalido(req.idCuidador));
    }
    var p := pacienteId.value;
    var lb := ObtenerLineaBaseActiva(store.lineasBase, p);
    var reqs := Convertir(p, req.preguntas, parse);
    if reqs.Err? {
      return Err(reqs.error);
    }
    var m := RealizarAnalisisMultiple(store, api, reqs.value, p, now);
    if m.Err? {
      return Err(m.error);
    }
    // without a prior baseline, the one the questionnaire may have created
    var lineaBaseId: Option<Id>;
    if lb.None? {
      var nueva := ObtenerLineaBaseActiva(store.lineasBase, p);
      lineaBaseId := IdDe(nueva);
    } else {
      lineaBaseId := IdDe(lb);
    }
    r := GuardarEvaluacion(store, p, cuidadorId.value, req, m.value, lb, lineaBaseId, now);
  }

  /** The running totals of the aggregation loop. */
  datatype Sumas = Sumas(global: real, semantico: real, objetos: real, acciones: real, coherencia: real,
                         conDeterioro: nat)

  /** The totals over a list of individual results. */
  function SumasDe(rs: seq<ResultadoPregunta>): Sumas
  {
    Sumas(SumOf(rs, GlobalDe), SumOf(rs, SemanticoDe), SumOf(rs, ObjetosDe), SumOf(rs, AccionesDe),
          SumOf(rs, CoherenciaDe), CountWhere(rs, ConDeterioroDe))
  }

  /**
   * The aggregation loop of `ProcesarEvaluacionCompletaAsync`: the individual results, the
   * five score sums and the number of questions whose response flagged deterioration.
   */
  method Acumular(qs: seq<PreguntaEvaluacion>, resps: seq<AnalisisResponse>)
    returns (rs: seq<ResultadoPregunta>, sumas: Sumas)
    ensures rs == Resultados(qs, resps)
    ensures sumas == SumasDe(rs)
  {
    ghost var todos := Resultados(qs, resps);
    rs := [];
    var sumaGlobal, sumaSemantico, sumaObjetos, sumaAcciones, sumaCoherencia := 0.0, 0.0, 0.0, 0.0, 0.0;
    var conDeterioro: nat := 0;
    var i := 0;
    while i < |resps| && i < |qs|
      invariant i <= |todos|
      invariant rs == todos[..i]
      invariant sumaGlobal == SumOf(rs, GlobalDe) && sumaSemantico == SumOf(rs, SemanticoDe)
      invariant sumaObjetos == SumOf(rs, ObjetosDe) && sumaAcciones == SumOf(rs, AccionesDe)
      invariant sumaCoherencia == SumOf(rs, CoherenciaDe)
      invariant conDeterioro == CountWhere(rs, ConDeterioroDe)
      decreases |qs| - i
    {
      var a := resps[i];
      var x := ResultadoDe(qs[i], a);
      SumOfSnoc(rs, x, GlobalDe);
      SumOfSnoc(rs, x, SemanticoDe);
      SumOfSnoc(rs, x, ObjetosDe);
      SumOfSnoc(rs, x, AccionesDe);
      SumOfSnoc(rs, x, CoherenciaDe);
      CountWhereSnoc(rs, x, ConDeterioroDe);
      PrefixSnoc(todos, i);
      rs := rs + [x];
      sumaGlobal := sumaGlobal + a.scoreGlobal;
      sumaSemantico := sumaSemantico + a.scoreSemantico;
      sumaObjetos := sumaObjetos + a.scoreObjetos;
      sumaAcciones := sumaAcciones + a.scoreAcciones;
      sumaCoherencia := sumaCoherencia + a.coherenciaLinguistica;
      if a.comparacion.deterioroDetectado {
        conDeterioro := conDeterioro + 1;
      }
      i := i + 1;
    }
    assert todos[..i] == todos;
    sumas := Sumas(sumaGlobal, sumaSemantico, sumaObjetos, sumaAcciones, sumaCoherencia, conDeterioro);
  }

  /**
   * The part of `ProcesarEvaluacionCompletaAsync` after the questionnaire: aggregates the
   * responses, builds the assessment record and saves it.
   */
  method GuardarEvaluacion(store: AnalisisStore, p: Id, cuidador: Id, req: EvaluacionCompletaRequest,
                           resps: seq<AnalisisResponse>, lb: Option<LineaBase>, lineaBaseId: Option<Id>, now: Time)
    returns (r: Result<EvaluacionCompletaResponse, ErrorAnalisis>)
    modifies store
    ensures (r, store.Estado()) == Evaluar(old(store.Estado()), p, cuidador, req, resps, lb, lineaBaseId, now)
  {
    ghost var t0 := store.Estado();
    var rs, sumas := Acumular(req.preguntas, resps);
    if |rs| == 0 {
      return Err(SinPreguntasProcesadas);
    }
    var id := store.NuevoId();
    var e := ConstruirEvaluacion(id, p, cuidador, req, rs, sumas, lb, lineaBaseId, now);
    var guardada := store.CrearEvaluacionCompleta(e);
    r := Ok(RespuestaEvaluacion(guardada, rs));
    EvaluarGuardada(t0, p, cuidador, req, resps, lb, lineaBaseId, now);
  }

  /** What `Evaluar` saves and answers once some question has been processed. */
  lemma EvaluarGuardada(t1: Tablas, p: Id, cuidador: Id, req: EvaluacionCompletaRequest,
                        resps: seq<AnalisisResponse>, lb: Option<LineaBase>, lbId: Option<Id>, now: Time)
    requires |Resultados(req.preguntas, resps)| > 0
    ensures var rs := Resultados(req.preguntas, resps);
      var e := Evaluacion(t1.nextId, p, cuidador, req, rs, lb, lbId, now);
      Evaluar(t1, p, cuidador, req, resps, lb, lbId, now)
        == (Ok(RespuestaEvaluacion(e, rs)), t1.(evaluaciones := t1.evaluaciones + [e], nextId := t1.nextId + 1))
  {
  }

  /** The means, the verdict, the level and the texts of the assessment, from the totals. */
  method ConstruirEvaluacion(id: Id, p: Id, cuidador: Id, req: EvaluacionCompletaRequest, rs: seq<ResultadoPregunta>,
                             sumas: Sumas, lb: Option<LineaBase>, lineaBaseId: Option<Id>, now: Time)
    returns (e: EvaluacionCompleta)
    requires |rs| > 0 && sumas == SumasDe(rs)
    ensures e == Evaluacion(id, p, cuidador, req, rs, lb, lineaBaseId, now)
  {
    var n := |rs|;
    var g := sumas.global / (n as real);
    var deterioro := sumas.conDeterioro > n / 2;
    var nivel := DeterminarNivelDeterioroGeneral(g, deterioro);
    var diferencia := if lb.Some? then Some(g - lb.value.scoreGlobalInicial) else None;
    var observaciones := GenerarObservacionesGenerales(rs, g, deterioro);
    var recomendaciones := GenerarRecomendacionesMedicas(nivel, g, deterioro);
    e := EvaluacionCompleta(id, p, cuidador, req.fechaRealizacion, |req.preguntas|, n, g, sumas.semantico / (n as real),
      sumas.objetos / (n as real), sumas.acciones / (n as real), sumas.coherencia / (n as real),
      TiempoRespuestaPorDefecto, deterioro, nivel, diferencia, observaciones, recomendaciones, lb.None?, lineaBaseId, now);
  }
}
