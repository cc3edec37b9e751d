/**
 * The text-analysis client (`GeminiService`): the prompts it builds, the clean-up of the
 * model's answer text before decoding, and the error paths of a call.
 *
 * The HTTP exchange is a function `enviar` from prompt to reply and the JSON decoding is a
 * function from text to `Json<...>`, both supplied by the caller. The fixed instruction
 * text of the prompts is not reproduced; a prompt is the record of its varying parts.
 */
module GeminiService {
  import opened Wrappers
  import opened Entities
  import opened Text

  // ---------------------------------------------------------------- prompts

  /** The baseline paragraph of a prompt: the prior score to compare with, or "initial evaluation". */
  datatype SeccionBaseline = BaselinePrevio(score: real) | EvaluacionInicial

  /** The text sent to the model, by its varying parts. */
  datatype Prompt =
    | PromptAnalisis(descripcionPaciente: string, descripcionReal: string, metadata: string,
                     baseline: SeccionBaseline)
    | PromptCuestionario(preguntasFormateadas: string, totalPreguntas: nat, baseline: SeccionBaseline)

  /** `scoreBaselinePrevio.HasValue ? ... : ...`: the paragraph is chosen by the presence of a prior score alone. */
  function Seccion(prev: Option<real>): (s: SeccionBaseline)
    ensures s.EvaluacionInicial? <==> prev.None?
    ensures s.BaselinePrevio? ==> s.score == prev.value
  {
    if prev.Some? then BaselinePrevio(prev.value) else EvaluacionInicial
  }

  /** What the single-question prompt shows for a missing metadata text. */
  const SinMetadata: string := "No disponible"

  /** `ConstruirPrompt`: the two descriptions, the metadata text (or "No disponible") and the baseline paragraph. */
  function ConstruirPrompt(descripcionPaciente: string, descripcionReal: string, metadataJson: Option<string>,
                           prev: Option<real>): (p: Prompt)
    ensures p.PromptAnalisis?
    ensures p.descripcionPaciente == descripcionPaciente && p.descripcionReal == descripcionReal
    ensures metadataJson.None? ==> p.metadata == SinMetadata
    ensures metadataJson.Some? ==> p.metadata == metadataJson.value
    ensures p.baseline.EvaluacionInicial? <==> prev.None?
  {
    PromptAnalisis(descripcionPaciente, descripcionReal,
                   if metadataJson.Some? then metadataJson.value else SinMetadata, Seccion(prev))
  }

  /**
   * The block the questionnaire prompt's loop appends for question `i` (numbered from one).
   * `AppendLine`'s line end and the verbatim string's line breaks are taken to be "\n".
   */
  function Bloque(i: nat, q: AnalisisRequest): string
  {
    "\nPREGUNTA #" + NatToString(i + 1) + ":\n- Descripción del paciente: " + q.descripcionPaciente
    + "\n- Descripción real: " + q.descripcionReal + "\n" + "\n"
  }

  /** The question list: one block per question, in input order. */
  function Formateadas(ps: seq<AnalisisRequest>): string
  {
    if ps == [] then [] else Formateadas(ps[..|ps| - 1]) + Bloque(|ps| - 1, ps[|ps| - 1])
  }

  /** Where the block of question `i` starts in the question list. */
  function Inicio(ps: seq<AnalisisRequest>, i: nat): nat
    requires i <= |ps|
  {
    |Formateadas(ps[..i])|
  }

  /** The list for a prefix of the questions is a prefix of the whole list. */
  lemma {:induction false} FormateadasPrefijo(ps: seq<AnalisisRequest>, i: nat)
    requires i <= |ps|
    ensures Inicio(ps, i) <= |Formateadas(ps)|
    ensures Formateadas(ps)[..Inicio(ps, i)] == Formateadas(ps[..i])
  {
    if i < |ps| {
      var init := ps[..|ps| - 1];
      assert init[..i] == ps[..i];
      FormateadasPrefijo(init, i);
      assert Formateadas(ps) == Formateadas(init) + Bloque(|ps| - 1, ps[|ps| - 1]);
    } else {
      assert ps[..i] == ps;
    }
  }

  /**
   * The list holds the block of question `i`, numbered `i + 1`, right after the block of
   * question `i - 1`: "PREGUNTA #1" .. "#N" in input order.
   */
  lemma BloqueEnOrden(ps: seq<AnalisisRequest>, i: nat)
    requires i < |ps|
    ensures Inicio(ps, i) + |Bloque(i, ps[i])| == Inicio(ps, i + 1) <= |Formateadas(ps)|
    ensures Formateadas(ps)[Inicio(ps, i)..Inicio(ps, i + 1)] == Bloque(i, ps[i])
  {
    var pre := ps[..i + 1];
    assert pre[..|pre| - 1] == ps[..i];
    assert Formateadas(pre) == Formateadas(ps[..i]) + Bloque(i, ps[i]);
    FormateadasPrefijo(ps, i + 1);
  }

  /** The questionnaire prompt `ConstruirPromptCuestionarioCompleto` builds. */
  function PromptCuestionarioDe(ps: seq<AnalisisRequest>, prev: Option<real>): Prompt
  {
    PromptCuestionario(Formateadas(ps), |ps|, Seccion(prev))
  }

  /** The questionnaire prompt states how many results it asks for, and its baseline paragraph. */
  lemma PromptCuestionarioPide(ps: seq<AnalisisRequest>, prev: Option<real>)
    ensures PromptCuestionarioDe(ps, prev).totalPreguntas == |ps|
    ensures PromptCuestionarioDe(ps, prev).baseline.EvaluacionInicial? <==> prev.None?
    ensures PromptCuestionarioDe(ps, prev).baseline.BaselinePrevio? ==>
      PromptCuestionarioDe(ps, prev).baseline.score == prev.value
  {
  }

  /**
   * `ConstruirPromptCuestionarioCompleto`: appends one block per question to a buffer, then
   * fills in the count and the baseline paragraph.
   */
  method ConstruirPromptCuestionarioCompleto(ps: seq<AnalisisRequest>, prev: Option<real>) returns (p: Prompt)
    ensures p == PromptCuestionarioDe(ps, prev)
  {
    var preguntasFormateadas: string := [];
    for i := 0 to |ps|
      invariant preguntasFormateadas == Formateadas(ps[..i])
    {
      assert ps[..i + 1][..i] == ps[..i];
      preguntasFormateadas := preguntasFormateadas + Bloque(i, ps[i]);
    }
    assert ps[..|ps|] == ps;
    p := PromptCuestionario(preguntasFormateadas, |ps|, Seccion(prev));
  }

  // ---------------------------------------------------------------- answer clean-up

  const Fence: string := "```"
  const FenceJson: string := "```json"

  /**
   * The single-question clean-up: trim, drop a leading "```json", then a leading "```",
   * then a trailing "```", and trim again.
   */
  function LimpiarRespuesta(texto: string): (r: string)
    ensures Unpadded(r)
  {
    var a := Trim(texto);
    var b := if StartsWith(a, FenceJson) then a[|FenceJson|..] else a;
    var c := if StartsWith(b, Fence) then b[|Fence|..] else b;
    var d := if EndsWith(c, Fence) then c[..|c| - |Fence|] else c;
    Trim(d)
  }

  /**
   * After the leading "```json" is gone, dropping a leading "```" and a trailing "```" from
   * `body + "```"` gives back `body`.
   */
  lemma QuitarCercas(body: string)
    requires !StartsWith(body, Fence)
    ensures var b := body + Fence;
      var c := if StartsWith(b, Fence) then b[|Fence|..] else b;
      (if EndsWith(c, Fence) then c[..|c| - |Fence|] else c) == body
  {
    var b := body + Fence;
    if StartsWith(b, Fence) {
      assert |body| < 3;
      var c := b[|Fence|..];
      assert |c| == |body|;
      forall k | 0 <= k < |body|
        ensures c[k] == body[k]
      {
        assert c[k] == b[k + 3] == '`';
        assert body[k] == b[k] == b[..3][k];
      }
      assert c == body;
    } else {
      assert b[..|b| - |Fence|] == body;
    }
  }

  /** A body wrapped in a "```json" .. "```" fence cleans to the trimmed body. */
  lemma LimpiarCercado(body: string)
    requires !StartsWith(body, Fence)
    ensures LimpiarRespuesta(FenceJson + body + Fence) == Trim(body)
  {
    CercadoSinRelleno(body);
    CercadoAbre(body);
    QuitarCercas(body);
    var b := body + Fence;
    var c := if StartsWith(b, Fence) then b[|Fence|..] else b;
    assert (if EndsWith(c, Fence) then c[..|c| - |Fence|] else c) == body;
  }

  /** A fenced text has no white space at either end, so trimming keeps it. */
  lemma CercadoSinRelleno(body: string)
    ensures Trim(FenceJson + body + Fence) == FenceJson + body + Fence
  {
    var t := FenceJson + body + Fence;
    assert t[0] == '`' && t[|t| - 1] == '`';
    TrimUnpadded(t);
  }

  /** A fenced text starts with "```json", and what follows it is the body and the closing fence. */
  lemma CercadoAbre(body: string)
    ensures StartsWith(FenceJson + body + Fence, FenceJson)
    ensures (FenceJson + body + Fence)[|FenceJson|..] == body + Fence
  {
    var t := FenceJson + body + Fence;
    assert t[..|FenceJson|] == FenceJson;
  }

  /** A text that starts with "```json" starts with "```". */
  lemma CercaJsonEsCerca(s: string)
    ensures StartsWith(s, FenceJson) ==> StartsWith(s, Fence)
  {
    if StartsWith(s, FenceJson) {
      assert s[..|Fence|] == s[..|FenceJson|][..|Fence|];
    }
  }

  /** A text that, once trimmed, neither starts nor ends with "```" is only trimmed. */
  lemma LimpiarSinCercas(texto: string)
    requires !StartsWith(Trim(texto), Fence) && !EndsWith(Trim(texto), Fence)
    ensures LimpiarRespuesta(texto) == Trim(texto)
  {
    var a := Trim(texto);
    CercaJsonEsCerca(a);
    TrimIdempotent(texto);
    assert LimpiarRespuesta(texto) == Trim(a);
  }

  /**
   * The questionnaire clean-up: only when the raw text starts with "```json", every "```json"
   * and then every "```" is removed and the text trimmed; in every case it is trimmed.
   */
  function LimpiarRespuestaCuestionario(texto: string): (r: string)
    ensures Unpadded(r)
    ensures !StartsWith(texto, FenceJson) ==> r == Trim(texto)
  {
    var s := if StartsWith(texto, FenceJson) then Trim(RemoveAll(RemoveAll(texto, FenceJson), Fence)) else texto;
    Trim(s)
  }

  /** A backtick-free body wrapped in a "```json" .. "```" fence cleans to the trimmed body. */
  lemma CuestionarioCercado(body: string)
    requires '`' !in body
    ensures LimpiarRespuestaCuestionario(FenceJson + body + Fence) == Trim(body)
  {
    var t := FenceJson + body + Fence;
    assert t == FenceJson + (body + Fence);
    assert t[..|FenceJson|] == FenceJson;
    RemoveAllLeading(FenceJson, body + Fence);
    RemoveAllKeepsPrefix(body, Fence, FenceJson);
    RemoveAllShort(Fence, FenceJson);
    RemoveAllKeepsPrefix(body, Fence, Fence);
    assert Fence + [] == Fence;
    RemoveAllLeading(Fence, []);
    assert body + [] == body;
    TrimIdempotent(body);
  }

  /** On such a fenced body both clean-ups agree. */
  lemma LimpiezasCoinciden(body: string)
    requires '`' !in body
    ensures LimpiarRespuesta(FenceJson + body + Fence) == LimpiarRespuestaCuestionario(FenceJson + body + Fence)
  {
    assert !StartsWith(body, Fence) by {
      if |body| >= |Fence| {
        assert body[0] in body;
      }
    }
    LimpiarCercado(body);
    CuestionarioCercado(body);
  }

  /**
   * The questionnaire clean-up tests the raw text, not the trimmed one: a text with leading
   * white space is only trimmed, whatever fences follow it.
   */
  lemma CuestionarioEspacioInicial(texto: string)
    requires texto != [] && IsWhiteSpace(texto[0])
    ensures LimpiarRespuestaCuestionario(texto) == Trim(texto)
  {
    assert !StartsWith(texto, FenceJson) by {
      assert texto[0] != FenceJson[0];
    }
  }

  // ---------------------------------------------------------------- calls

  /**
   * What the HTTP exchange yields: a non-success status, a body that is not the API's JSON,
   * or the first candidate's first part text (`null` when any link of the chain is missing).
   */
  datatype RespuestaHttp = Fallida(statusCode: int) | CuerpoIlegible | Recibida(texto: Option<string>)

  /** Why a call throws. */
  datatype ErrorGemini =
    | ErrorLlamada(statusCode: int)   // "Error al llamar a Gemini API"
    | CuerpoInvalido                  // the API's envelope did not deserialise
    | RespuestaVacia                  // "Respuesta vacía de Gemini API"
    | JsonInvalido                    // the cleaned text did not deserialise
    | RespuestaNula                   // the questionnaire answer was `null`
    | SinResumen                      // the questionnaire answer had no `resumen_general`

  /** The model's API: the exchange and the two decoders. */
  datatype Gemini = Gemini(
    enviar: Prompt -> RespuestaHttp,
    decodificarAnalisis: string -> Json<GeminiAnalisis>,
    decodificarCuestionario: string -> Json<GeminiCuestionario>)

  /** `string.IsNullOrEmpty`. */
  predicate Vacio(texto: Option<string>)
  {
    texto.None? || texto.value == []
  }

  /**
   * `AnalizarConGeminiAsync`. A `null` decoded answer is returned as `None` (the caller fails
   * on it); an empty answer text fails before anything is decoded.
   */
  function AnalizarConGemini(api: Gemini, descripcionPaciente: string, descripcionReal: string,
                             metadataJson: Option<string>, prev: Option<real>): (r: Result<Option<GeminiAnalisis>, ErrorGemini>)
    ensures var reply := api.enviar(ConstruirPrompt(descripcionPaciente, descripcionReal, metadataJson, prev));
      && (reply.Fallida? ==> r == Err(ErrorLlamada(reply.statusCode)))
      && (reply.Recibida? && Vacio(reply.texto) ==> r == Err(RespuestaVacia))
      && (r.Ok? <==> reply.Recibida? && !Vacio(reply.texto)
                     && !api.decodificarAnalisis(LimpiarRespuesta(reply.texto.value)).Malformed?)
      && (r.Ok? && r.value.Some? ==>
            api.decodificarAnalisis(LimpiarRespuesta(reply.texto.value)) == Parsed(r.value.value))
      && (reply.CuerpoIlegible? ==> r == Err(CuerpoInvalido))
      && (reply.Recibida? && !Vacio(reply.texto) ==>
            var d := api.decodificarAnalisis(LimpiarRespuesta(reply.texto.value));
            && (d.Malformed? ==> r == Err(JsonInvalido))
            && (d.JsonNull? ==> r == Ok(None))
            && (d.Parsed? ==> r == Ok(Some(d.value))))
  {
    match api.enviar(ConstruirPrompt(descripcionPaciente, descripcionReal, metadataJson, prev))
    case Fallida(status) => Err(ErrorLlamada(status))
    case CuerpoIlegible => Err(CuerpoInvalido)
    case Recibida(texto) =>
      if Vacio(texto) then Err(RespuestaVacia)
      else
        match api.decodificarAnalisis(LimpiarRespuesta(texto.value))
        case Malformed => Err(JsonInvalido)
        case JsonNull => Ok(None)
        case Parsed(v) => Ok(Some(v))
  }

  /** The outcome of the questionnaire call for a given prompt. */
  function RespuestaCuestionario(api: Gemini, prompt: Prompt): (r: Result<GeminiCuestionario, ErrorGemini>)
    ensures r.Ok? ==> r.value.resumen.Some?
    ensures var reply := api.enviar(prompt);
      && (reply.Fallida? ==> r == Err(ErrorLlamada(reply.statusCode)))
      && (reply.Recibida? && Vacio(reply.texto) ==> r == Err(RespuestaVacia))
      && (r.Ok? <==> reply.Recibida? && !Vacio(reply.texto)
                     && api.decodificarCuestionario(LimpiarRespuestaCuestionario(reply.texto.value)).Parsed?
                     && api.decodificarCuestionario(LimpiarRespuestaCuestionario(reply.texto.value)).value.resumen.Some?)
      && (r.Ok? ==> api.decodificarCuestionario(LimpiarRespuestaCuestionario(reply.texto.value)) == Parsed(r.value))
      && (reply.CuerpoIlegible? ==> r == Err(CuerpoInvalido))
      && (reply.Recibida? && !Vacio(reply.texto) ==>
            var d := api.decodificarCuestionario(LimpiarRespuestaCuestionario(reply.texto.value));
            && (d.Malformed? ==> r == Err(JsonInvalido))
            && (d.JsonNull? ==> r == Err(RespuestaNula))
            && (d.Parsed? && d.value.resumen.None? ==> r == Err(SinResumen)))
  {
    match api.enviar(prompt)
    case Fallida(status) => Err(ErrorLlamada(status))
    case CuerpoIlegible => Err(CuerpoInvalido)
    case Recibida(texto) =>
      if Vacio(texto) then Err(RespuestaVacia)
      else
        match api.decodificarCuestionario(LimpiarRespuestaCuestionario(texto.value))
        // the success log reads `resumen_general.score_global_promedio`
        case Malformed => Err(JsonInvalido)
        case JsonNull => Err(RespuestaNula)
        case Parsed(c) => if c.resumen.None? then Err(SinResumen) else Ok(c)
  }

  /** `AnalizarCuestionarioCompletoAsync`: builds the questionnaire prompt and makes the call. */
  method AnalizarCuestionarioCompleto(api: Gemini, ps: seq<AnalisisRequest>, prev: Option<real>)
    returns (r: Result<GeminiCuestionario, ErrorGemini>)
    ensures r == RespuestaCuestionario(api, PromptCuestionarioDe(ps, prev))
  {
    var prompt := ConstruirPromptCuestionarioCompleto(ps, prev);
    r := RespuestaCuestionario(api, prompt);
  }

  /** An empty answer text fails the same way whatever the decoders would have made of it. */
  lemma VacioNoDecodifica(api: Gemini, otra: Gemini, prompt: Prompt)
    requires api.enviar == otra.enviar
    requires api.enviar(prompt).Recibida? && Vacio(api.enviar(prompt).texto)
    ensures RespuestaCuestionario(api, prompt) == RespuestaCuestionario(otra, prompt) == Err(RespuestaVacia)
  {
  }
}
