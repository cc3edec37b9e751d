/**
 * The message consumer (`RabbitMqConsumer`): a request arrives with a routing key
 * `<a>.<b>.<entity>.<action>[...]` and a JSON text; segment 2 picks the entity, segment 3 the
 * action, and the handler checks its payload, calls the engine or a query, and answers with a
 * success envelope or an error envelope (status 400 by default, 404 when a looked-up row is
 * missing). Every exception inside an entity's processing becomes an error envelope.
 *
 * Deserialising the JSON text is done by functions supplied by the caller; the envelopes are
 * values, not serialised text.
 */
module RabbitMqConsumer {
  import opened Wrappers
  import opened Entities
  import opened Text
  import opened AnalisisRepository
  import opened GeminiService
  import opened AnalisisService

  // ---------------------------------------------------------------- envelopes

  /** An exception caught by `ProcessAnalisisAsync` or `ProcessEvaluacionAsync`. */
  datatype Excepcion =
    | JsonMalformado                     // the deserialiser threw
    | FormatoGuid(texto: string)         // `Guid.Parse` threw
    | DelServicio(error: ErrorAnalisis)  // the engine threw

  /** The `message` of an error envelope: a fixed text, or the caught exception's message. */
  datatype Motivo = Texto(texto: string) | DeExcepcion(excepcion: Excepcion)

  /** The `data` of a success envelope, one kind per handler (`count` is the list's length). */
  datatype Datos =
    | AnalisisRealizado(respuesta: AnalisisResponse)
    | ListaAnalisis(analisis: seq<AnalisisCognitivo>)
    | UnAnalisis(registro: AnalisisCognitivo)
    | UnaLineaBase(lineaBase: LineaBase)
    | EvaluacionProcesada(evaluacion: EvaluacionCompletaResponse)
    | EvaluacionRegistrada(registrada: Option<EvaluacionCompleta>)
    | ListaEvaluaciones(evaluaciones: seq<EvaluacionCompleta>)

  /** A reply: `{ success = true, data }` or `{ success = false, message, statusCode }`. */
  datatype Respuesta = Exito(data: Datos) | Error(motivo: Motivo, statusCode: int)

  /** The default status of an error envelope. */
  const SolicitudInvalida: int := 400

  /** The status of a lookup that found nothing. */
  const NoEncontrado: int := 404

  /** `CreateErrorResponse(message, statusCode = 400)`. */
  function CreateErrorResponse(message: Motivo, statusCode: int := SolicitudInvalida): Respuesta
  {
    Error(message, statusCode)
  }

  // ---------------------------------------------------------------- routing

  /** The handlers a message can reach. */
  datatype Handler =
    | HandleAnalizar | HandleGetByPaciente | HandleGetById | HandleGetDeterioro | HandleGetLineaBase
    | HandleProcesarEvaluacion | HandleGetEvaluacionById | HandleGetEvaluacionByPaciente

  /** The entity segment that leads to a handler. */
  function EntidadDe(h: Handler): string
  {
    if h.HandleProcesarEvaluacion? || h.HandleGetEvaluacionById? || h.HandleGetEvaluacionByPaciente?
    then "evaluacion" else "analisis"
  }

  /** The action segment that leads to a handler. */
  function AccionDe(h: Handler): string
  {
    match h
    case HandleAnalizar => "analizar"
    case HandleGetByPaciente => "getByPaciente"
    case HandleGetById => "getById"
    case HandleGetDeterioro => "getDeterioro"
    case HandleGetLineaBase => "getLineaBase"
    case HandleProcesarEvaluacion => "procesar"
    case HandleGetEvaluacionById => "getById"
    case HandleGetEvaluacionByPaciente => "getByPaciente"
  }

  /** The `action switch` of `ProcessAnalisisAsync`. */
  function AccionAnalisis(action: string): Result<Handler, Respuesta>
  {
    if action == "analizar" then Ok(HandleAnalizar)
    else if action == "getByPaciente" then Ok(HandleGetByPaciente)
    else if action == "getById" then Ok(HandleGetById)
    else if action == "getDeterioro" then Ok(HandleGetDeterioro)
    else if action == "getLineaBase" then Ok(HandleGetLineaBase)
    else Err(CreateErrorResponse(Texto("Acción desconocida: " + action)))
  }

  /** The `action switch` of `ProcessEvaluacionAsync`. */
  function AccionEvaluacion(action: string): Result<Handler, Respuesta>
  {
    if action == "procesar" then Ok(HandleProcesarEvaluacion)
    else if action == "getById" then Ok(HandleGetEvaluacionById)
    else if action == "getByPaciente" then Ok(HandleGetEvaluacionByPaciente)
    else Err(CreateErrorResponse(Texto("Acción desconocida: " + action)))
  }

  /** The routing of `ProcessMessageAsync`: the handler of a routing key, or the error envelope. */
  function Enrutar(routingKey: string): Result<Handler, Respuesta>
  {
    var parts := Split(routingKey, '.');
    if |parts| < 4 then Err(CreateErrorResponse(Texto("Routing key inválido")))
    else
      var entity := parts[2];
      var action := parts[3];
      if entity == "analisis" then AccionAnalisis(action)
      else if entity == "evaluacion" then AccionEvaluacion(action)
      else Err(CreateErrorResponse(Texto("Entidad desconocida: " + entity)))
  }

  /** A routing key is rejected as invalid exactly when it has fewer than three dots. */
  lemma EnrutarClaveInvalida(routingKey: string)
    ensures Enrutar(routingKey) == Err(Error(Texto("Routing key inválido"), SolicitudInvalida))
            <==> Count(routingKey, '.') < 3
  {
    SplitShape(routingKey, '.');
    var parts := Split(routingKey, '.');
    if |parts| >= 4 {
      var entity := parts[2];
      var action := parts[3];
      assert ("Entidad desconocida: " + entity)[0] == 'E';
      assert ("Acción desconocida: " + action)[0] == 'A';
    }
  }

  /**
   * A routing key reaches a handler exactly when it has at least four segments, the third
   * being the handler's entity and the fourth its action; the other segments play no part.
   */
  lemma EnrutarSii(routingKey: string, h: Handler)
    ensures var parts := Split(routingKey, '.');
      Enrutar(routingKey) == Ok(h) <==> |parts| >= 4 && parts[2] == EntidadDe(h) && parts[3] == AccionDe(h)
  {
    var parts := Split(routingKey, '.');
    assert "analisis" != "evaluacion";
    assert "getDeterioro"[3] != "getLineaBase"[3];
  }

  /** With a known entity, an action outside its table is rejected as unknown, with status 400. */
  lemma EnrutarAccionDesconocida(routingKey: string)
    requires |Split(routingKey, '.')| >= 4
    requires Split(routingKey, '.')[2] in {"analisis", "evaluacion"}
    requires forall h: Handler :: EntidadDe(h) == Split(routingKey, '.')[2] ==> AccionDe(h) != Split(routingKey, '.')[3]
    ensures Enrutar(routingKey) == Err(Error(Texto("Acción desconocida: " + Split(routingKey, '.')[3]), SolicitudInvalida))
  {
    var parts := Split(routingKey, '.');
    if parts[2] == "analisis" {
      assert AccionDe(HandleAnalizar) != parts[3] && AccionDe(HandleGetByPaciente) != parts[3];
      assert AccionDe(HandleGetById) != parts[3] && AccionDe(HandleGetDeterioro) != parts[3];
      assert AccionDe(HandleGetLineaBase) != parts[3];
    } else {
      assert AccionDe(HandleProcesarEvaluacion) != parts[3] && AccionDe(HandleGetEvaluacionById) != parts[3];
      assert AccionDe(HandleGetEvaluacionByPaciente) != parts[3];
    }
  }

  // ---------------------------------------------------------------- handlers

  /** The deserialisers of the message text, one per shape a handler asks for. */
  datatype Deserializador = Deserializador(
    diccionario: string -> Json<map<string, string>>,
    analisisRequest: string -> Json<AnalisisRequest>,
    evaluacionRequest: string -> Json<EvaluacionCompletaRequest>)

  /** The key a handler requires in its dictionary payload, if it reads one. */
  function LlaveDe(h: Handler): Option<string>
  {
    match h
    case HandleGetByPaciente => Some("pacienteId")
    case HandleGetLineaBase => Some("pacienteId")
    case HandleGetEvaluacionByPaciente => Some("pacienteId")
    case HandleGetById => Some("analisisId")
    case HandleGetEvaluacionById => Some("evaluacionId")
    case _ => None
  }

  /** The error text when a handler's required key is missing. */
  function LlaveRequerida(llave: string): string
  {
    if llave == "pacienteId" then "PacienteId requerido"
    else if llave == "analisisId" then "AnalisisId requerido"
    else "EvaluacionId requerido"
  }

  /**
   * The start of the `Handle*` methods that read a dictionary: the id under `llave`, or the
   * envelope for a missing key (including a `null` payload) or for an exception.
   */
  function IdDelMensaje(des: Deserializador, parse: string -> Option<Id>, message: string, llave: string)
    : Result<Id, Respuesta>
  {
    match des.diccionario(message)
    case Malformed => Err(CreateErrorResponse(DeExcepcion(JsonMalformado)))
    case JsonNull => Err(CreateErrorResponse(Texto(LlaveRequerida(llave))))
    case Parsed(data) =>
      if llave !in data then Err(CreateErrorResponse(Texto(LlaveRequerida(llave))))
      else if parse(data[llave]).None? then Err(CreateErrorResponse(DeExcepcion(FormatoGuid(data[llave]))))
      else Ok(parse(data[llave]).value)
  }

  /** `HandleAnalizar`: the single analysis of the deserialised request. */
  function Analizar(t: Tablas, api: Gemini, json: ImagenMetadata -> string, des: Deserializador, message: string,
                    now: Time): (Respuesta, Tablas)
  {
    match des.analisisRequest(message)
    case Malformed => (CreateErrorResponse(DeExcepcion(JsonMalformado)), t)
    case JsonNull => (CreateErrorResponse(Texto("Request inválido")), t)
    case Parsed(request) =>
      var (r, t1) := AnalisisService.Analizar(t, api, json, request, now);
      if r.Err? then (CreateErrorResponse(DeExcepcion(DelServicio(r.error))), t1)
      else (Exito(AnalisisRealizado(r.value)), t1)
  }

  /** `HandleProcesarEvaluacion`: the full assessment of the deserialised request. */
  function ProcesarEvaluacion(t: Tablas, api: Gemini, parse: string -> Option<Id>, des: Deserializador,
                              message: string, now: Time): (Respuesta, Tablas)
  {
    match des.evaluacionRequest(message)
    case Malformed => (CreateErrorResponse(DeExcepcion(JsonMalformado)), t)
    case JsonNull => (CreateErrorResponse(Texto("Request inválido")), t)
    case Parsed(request) =>
      var (r, t1) := AnalisisService.ProcesarEvaluacion(t, api, parse, request, now);
      if r.Err? then (CreateErrorResponse(DeExcepcion(DelServicio(r.error))), t1)
      else (Exito(EvaluacionProcesada(r.value)), t1)
  }

  /** The read-only handlers: a query of the tables for the id of the payload. */
  function Consultar(t: Tablas, h: Handler, des: Deserializador, parse: string -> Option<Id>, message: string)
    : Respuesta
    requires !h.HandleAnalizar? && !h.HandleProcesarEvaluacion?
  {
    if h.HandleGetDeterioro? then Exito(ListaAnalisis(ObtenerConDeterioro(t.analisis)))
    else
      var id := IdDelMensaje(des, parse, message, LlaveDe(h).value);
      if id.Err? then id.error
      else
        match h
        case HandleGetByPaciente => Exito(ListaAnalisis(ObtenerPorPaciente(t.analisis, id.value)))
        case HandleGetById =>
          var a := ObtenerPorId(t.analisis, id.value);
          if a.None? then CreateErrorResponse(Texto("Análisis no encontrado"), NoEncontrado) else Exito(UnAnalisis(a.value))
        case HandleGetLineaBase =>
          var b := ObtenerLineaBaseActiva(t.lineasBase, id.value);
          if b.None? then CreateErrorResponse(Texto("Línea base no encontrada"), NoEncontrado)
          else Exito(UnaLineaBase(b.value))
        case HandleGetEvaluacionById => Exito(EvaluacionRegistrada(ObtenerEvaluacionPorId(t.evaluaciones, id.value)))
        case HandleGetEvaluacionByPaciente =>
          Exito(ListaEvaluaciones(ObtenerEvaluacionesPorPaciente(t.evaluaciones, id.value)))
  }

  /** The handler `h` applied to the message. */
  function Atender(t: Tablas, api: Gemini, json: ImagenMetadata -> string, parse: string -> Option<Id>,
                   des: Deserializador, h: Handler, message: string, now: Time): (Respuesta, Tablas)
  {
    if h.HandleAnalizar? then Analizar(t, api, json, des, message, now)
    else if h.HandleProcesarEvaluacion? then ProcesarEvaluacion(t, api, parse, des, message, now)
    else (Consultar(t, h, des, parse, message), t)
  }

  /** `ProcessMessageAsync(routingKey, message)`: the reply and the database afterwards. */
  function ProcessMessage(t: Tablas, api: Gemini, json: ImagenMetadata -> string, parse: string -> Option<Id>,
                          des: Deserializador, routingKey: string, message: string, now: Time): (Respuesta, Tablas)
  {
    var h := Enrutar(routingKey);
    if h.Err? then (h.error, t) else Atender(t, api, json, parse, des, h.value, message, now)
  }

  // ---------------------------------------------------------------- properties

  /** A handler that reads a dictionary answers a missing key with its error, before any lookup. */
  lemma LlaveAusente(t: Tablas, api: Gemini, json: ImagenMetadata -> string, parse: string -> Option<Id>,
                     des: Deserializador, h: Handler, message: string, now: Time)
    requires LlaveDe(h).Some?
    requires des.diccionario(message).JsonNull? ||
             (des.diccionario(message).Parsed? && LlaveDe(h).value !in des.diccionario(message).value)
    ensures Atender(t, api, json, parse, des, h, message, now)
            == (Error(Texto(LlaveRequerida(LlaveDe(h).value)), SolicitudInvalida), t)
  {
  }

  /** The three required-key errors, by handler. */
  lemma LlavesRequeridas()
    ensures LlaveRequerida(LlaveDe(HandleGetByPaciente).value) == "PacienteId requerido"
    ensures LlaveRequerida(LlaveDe(HandleGetLineaBase).value) == "PacienteId requerido"
    ensures LlaveRequerida(LlaveDe(HandleGetEvaluacionByPaciente).value) == "PacienteId requerido"
    ensures LlaveRequerida(LlaveDe(HandleGetById).value) == "AnalisisId requerido"
    ensures LlaveRequerida(LlaveDe(HandleGetEvaluacionById).value) == "EvaluacionId requerido"
  {
    assert "analisisId" != "pacienteId";
    assert "evaluacionId" != "pacienteId" && "evaluacionId" != "analisisId";
  }

  /**
   * Only the two engine handlers write, and a reply that is an error leaves the database as
   * it was: a message either succeeds or has no effect.
   */
  lemma AtenderFallaSinCambios(t: Tablas, api: Gemini, json: ImagenMetadata -> string, parse: string -> Option<Id>,
                               des: Deserializador, h: Handler, message: string, now: Time)
    ensures !h.HandleAnalizar? && !h.HandleProcesarEvaluacion? ==> Atender(t, api, json, parse, des, h, message, now).1 == t
    ensures Atender(t, api, json, parse, des, h, message, now).0.Error? ==> Atender(t, api, json, parse, des, h, message, now).1 == t
  {
    if h.HandleAnalizar? && des.analisisRequest(message).Parsed? {
      AnalizarFallaSinCambios(t, api, json, des.analisisRequest(message).value, now);
    } else if h.HandleProcesarEvaluacion? && des.evaluacionRequest(message).Parsed? {
      ProcesarFallaSinCambios(t, api, parse, des.evaluacionRequest(message).value, now);
    }
  }

  /**
   * An error reply has status 400 or 404, and 404 exactly for an analysis or active baseline
   * that is not found for a well-formed id.
   */
  lemma StatusCode(t: Tablas, api: Gemini, json: ImagenMetadata -> string, parse: string -> Option<Id>,
                   des: Deserializador, h: Handler, message: string, now: Time)
    ensures var r := Atender(t, api, json, parse, des, h, message, now).0;
      && (r.Error? ==> r.statusCode == SolicitudInvalida || r.statusCode == NoEncontrado)
      && (r.Error? && r.statusCode == NoEncontrado <==>
            && (h.HandleGetById? || h.HandleGetLineaBase?)
            && var id := IdDelMensaje(des, parse, message, LlaveDe(h).value);
               && id.Ok?
               && (h.HandleGetById? ==> ObtenerPorId(t.analisis, id.value).None?)
               && (h.HandleGetLineaBase? ==> ObtenerLineaBaseActiva(t.lineasBase, id.value).None?))
  {
    if h.HandleAnalizar? {
      assert Atender(t, api, json, parse, des, h, message, now) == Analizar(t, api, json, des, message, now);
    } else if h.HandleProcesarEvaluacion? {
      assert Atender(t, api, json, parse, des, h, message, now) == ProcesarEvaluacion(t, api, parse, des, message, now);
    } else {
      assert Atender(t, api, json, parse, des, h, message, now).0 == Consultar(t, h, des, parse, message);
    }
  }

  /** `getDeterioro` ignores the payload: every message gets the analyses with deterioration. */
  lemma DeterioroSinPayload(t: Tablas, api: Gemini, json: ImagenMetadata -> string, parse: string -> Option<Id>,
                            des: Deserializador, message: string, now: Time)
    ensures Atender(t, api, json, parse, des, HandleGetDeterioro, message, now)
            == (Exito(ListaAnalisis(ObtenerConDeterioro(t.analisis))), t)
  {
  }

  /** A message with an unroutable key is answered with the routing error, and writes nothing. */
  lemma ProcessMessageNoEnrutado(t: Tablas, api: Gemini, json: ImagenMetadata -> string, parse: string -> Option<Id>,
                                 des: Deserializador, routingKey: string, message: string, now: Time)
    requires Enrutar(routingKey).Err?
    ensures ProcessMessage(t, api, json, parse, des, routingKey, message, now) == (Enrutar(routingKey).error, t)
    ensures Enrutar(routingKey).error.Error? && Enrutar(routingKey).error.statusCode == SolicitudInvalida
  {
    var parts := Split(routingKey, '.');
    if |parts| >= 4 {
      if parts[2] == "analisis" {
        assert Enrutar(routingKey) == AccionAnalisis(parts[3]);
      } else if parts[2] == "evaluacion" {
        assert Enrutar(routingKey) == AccionEvaluacion(parts[3]);
      }
    }
  }
}
