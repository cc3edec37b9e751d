/**
 * The records the service stores and exchanges: the three tables' rows (`LineaBase`,
 * `AnalisisCognitivo`, `EvaluacionCompleta`, `LogSistema`), the requests it receives, the
 * decoded answers of the text-analysis model and the responses it returns.
 *
 * A `Guid` is a natural number, a `DateTime` a whole number of seconds, a `float` a `real`
 * and a nullable value an `Option`.
 */
module Entities {
  import opened Wrappers

  /** A `Guid`. */
  type Id = nat

  /** A `DateTime`, in seconds. */
  type Time = int

  const SecondsPerHour: int := 3600
  const SecondsPerDay: int := 86400

  /** A row of the baselines table. */
  datatype LineaBase = LineaBase(
    id: Id,
    pacienteId: Id,
    scoreGlobalInicial: real,
    fechaEstablecimiento: Time,
    cantidadEvaluaciones: int,
    ultimaEvaluacion: Option<Time>,
    activa: bool,
    notas: NotaLineaBase)

  /** The notes the engine writes on the baselines it creates (its two fixed texts). */
  datatype NotaLineaBase =
    | PrimeraEvaluacion                    // set by a single analysis
    | PrimeraEvaluacionCon(analisis: nat)  // set by a questionnaire of that many analyses

  /** `new LineaBase { ... }`: the constructor makes the row active with no evaluations counted. */
  function NuevaLineaBase(id: Id, pacienteId: Id, score: real, now: Time, notas: NotaLineaBase): LineaBase
  {
    LineaBase(id, pacienteId, score, now, 0, None, true, notas)
  }

  /** The image metadata the engine attaches to each analysis (serialised as JSON by the source). */
  datatype ImagenMetadata = ImagenMetadata(imagenId: Id, fechaAnalisis: Time, numeroPregunta: Option<nat>)

  /** A row of the analyses table. */
  datatype AnalisisCognitivo = AnalisisCognitivo(
    id: Id,
    pacienteId: Id,
    imagenId: Id,
    descripcionPaciente: string,
    descripcionReal: string,
    metadataImagen: ImagenMetadata,
    scoreSemantico: real,
    scoreObjetos: real,
    scoreAcciones: real,
    falsosObjetos: int,
    tiempoRespuestaSeg: real,
    coherenciaLinguistica: real,
    scoreGlobal: real,
    observaciones: string,
    diferenciaScore: Option<real>,
    deterioroDetectado: Option<bool>,
    nivelCambio: Option<string>,
    esLineaBase: bool,
    lineaBaseId: Option<Id>,
    fechaAnalisis: Time)

  /** One line of the generated general observations (rendered with two decimals by the source). */
  datatype LineaObservacion =
    | Completada(preguntas: nat)
    | ScorePromedio(score: real)
    | ConDeterioro(conDeterioro: nat, total: nat)
    | MejorDesempeno(idPicture: string, score: real)
    | MayorDificultad(idPicture: string, score: real)

  /** A line of the medical recommendations. */
  datatype Recomendacion =
    | FuncionEstable | ContinuarSeguimiento | MantenerEstimulacion
    | DeterioroLeve | ConsultaNeurologo | EvaluacionMensual | TerapiaEstimulacion
    | DeterioroModerado | DerivacionUrgente | EvaluacionNeuropsicologica | ImagenCerebral | PlanIntervencion
    | DeterioroSevero | ConsultaUrgente | DiagnosticoDemencia | EstudiosComplementarios | ActividadesDiarias
    | ApoyoFamilia

  /** A row of the full-assessment table. */
  datatype EvaluacionCompleta = EvaluacionCompleta(
    id: Id,
    pacienteId: Id,
    cuidadorId: Id,
    fechaEvaluacion: Time,
    totalPreguntas: nat,
    preguntasProcesadas: nat,
    scoreGlobalPromedio: real,
    scoreSemanticoPromedio: real,
    scoreObjetosPromedio: real,
    scoreAccionesPromedio: real,
    coherenciaPromedio: real,
    tiempoRespuestaPromedio: real,
    deterioroDetectado: bool,
    nivelDeterioroGeneral: string,
    diferenciaConLineaBase: Option<real>,
    observacionesGenerales: seq<LineaObservacion>,
    recomendacionesMedicas: seq<Recomendacion>,
    esLineaBase: bool,
    lineaBaseId: Option<Id>,
    fechaCreacion: Time)

  /** A row of the log table. */
  datatype LogSistema = LogSistema(
    id: Id,
    nivel: string,
    componente: string,
    mensaje: string,
    excepcion: Option<string>,
    datosAdicionales: Option<string>,
    fechaRegistro: Time,
    usuarioId: Option<Id>,
    endpoint: Option<string>)

  /** One picture-description question: the patient's and the reference description. */
  datatype AnalisisRequest = AnalisisRequest(
    pacienteId: Id,
    imagenId: Id,
    descripcionPaciente: string,
    descripcionReal: string)

  /** A question of a full assessment, with its identifiers still as text. */
  datatype PreguntaEvaluacion = PreguntaEvaluacion(
    idPicture: string,
    imagenUrl: string,
    descripcionReal: string,
    pacienteRespuesta: string)

  /** A full-assessment request, with its identifiers still as text. */
  datatype EvaluacionCompletaRequest = EvaluacionCompletaRequest(
    idPaciente: string,
    idCuidador: string,
    preguntas: seq<PreguntaEvaluacion>,
    fechaRealizacion: Time,
    puntaje: int)

  /** `comparacion_con_baseline` of a decoded model answer. */
  datatype ComparacionBaseline = ComparacionBaseline(
    diferenciaScore: real,
    deterioroDetectado: bool,
    nivelCambio: Option<string>)

  /** A decoded single-question model answer. */
  datatype GeminiAnalisis = GeminiAnalisis(
    scoreSemantico: real,
    scoreObjetos: real,
    scoreAcciones: real,
    falsosObjetos: int,
    tiempoRespuestaSeg: real,
    coherenciaLinguistica: real,
    scoreGlobal: real,
    observaciones: string,
    comparacion: Option<ComparacionBaseline>)

  /** One entry of `resultados_preguntas` of a decoded questionnaire answer. */
  datatype ResultadoPreguntaGemini = ResultadoPreguntaGemini(
    numeroPregunta: int,
    scoreSemantico: real,
    scoreObjetos: real,
    scoreAcciones: real,
    falsosObjetos: int,
    coherenciaLinguistica: real,
    scoreGlobal: real,
    observaciones: string)

  /** `resumen_general` of a decoded questionnaire answer. */
  datatype ResumenGeneral = ResumenGeneral(
    scoreGlobalPromedio: real,
    scoreSemanticoPromedio: real,
    scoreObjetosPromedio: real,
    scoreAccionesPromedio: real,
    coherenciaPromedio: real,
    totalFalsosObjetos: int,
    tiempoRespuestaPromedioSeg: real,
    observacionesGenerales: string,
    recomendacionesMedicas: string,
    nivelDeterioro: string,
    deterioroDetectado: bool)

  /** A decoded questionnaire answer; each part may be absent (`null`) in the JSON. */
  datatype GeminiCuestionario = GeminiCuestionario(
    resultados: Option<seq<ResultadoPreguntaGemini>>,
    resumen: Option<ResumenGeneral>,
    comparacion: Option<ComparacionBaseline>)

  /** `ComparacionBaselineDto`. */
  datatype ComparacionBaselineDto = ComparacionBaselineDto(
    diferenciaScore: Option<real>,
    deterioroDetectado: bool,
    nivelCambio: string)

  /** `AnalisisResponse`. */
  datatype AnalisisResponse = AnalisisResponse(
    analisisId: Id,
    pacienteId: Id,
    imagenId: Id,
    scoreSemantico: real,
    scoreObjetos: real,
    scoreAcciones: real,
    falsosObjetos: int,
    tiempoRespuestaSeg: real,
    coherenciaLinguistica: real,
    scoreGlobal: real,
    observaciones: string,
    comparacion: ComparacionBaselineDto,
    esLineaBase: bool,
    fechaAnalisis: Time,
    mensaje: MensajeAnalisis)

  /** The message of an `AnalisisResponse` (one of the engine's fixed texts). */
  datatype MensajeAnalisis =
    | LineaBaseEstablecida                       // a single analysis set the baseline
    | LineaBaseCuestionario(analisis: nat)       // a questionnaire of that many analyses set it
    | DeterioroDetectado(nivel: Option<string>)  // a follow-up flagged deterioration
    | SinDeterioro                               // a follow-up without deterioration

  /** `ResultadoPregunta`: one question of a full-assessment response. */
  datatype ResultadoPregunta = ResultadoPregunta(
    idPicture: string,
    analisisId: Id,
    imagenUrl: string,
    descripcionReal: string,
    pacienteRespuesta: string,
    scoreGlobal: real,
    scoreSemantico: real,
    scoreObjetos: real,
    scoreAcciones: real,
    falsosObjetos: int,
    coherenciaLinguistica: real,
    observaciones: string,
    nivelCambio: string,
    deterioroDetectado: bool)

  /** `EvaluacionCompletaResponse`. */
  datatype EvaluacionCompletaResponse = EvaluacionCompletaResponse(
    evaluacionId: Id,
    pacienteId: Id,
    cuidadorId: Id,
    fechaEvaluacion: Time,
    totalPreguntas: nat,
    preguntasProcesadas: nat,
    scoreGlobalPromedio: real,
    scoreSemanticoPromedio: real,
    scoreObjetosPromedio: real,
    scoreAccionesPromedio: real,
    coherenciaPromedio: real,
    tiempoRespuestaPromedio: real,
    deterioroDetectado: bool,
    nivelDeterioroGeneral: string,
    diferenciaConLineaBase: Option<real>,
    resultadosIndividuales: seq<ResultadoPregunta>,
    observacionesGenerales: seq<LineaObservacion>,
    recomendacionesMedicas: seq<Recomendacion>,
    esLineaBase: bool,
    lineaBaseId: Option<Id>,
    fechaProcesamiento: Time)
}
