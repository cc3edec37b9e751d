# Recorderfy analysis service — a Dafny model

Recorderfy's analysis service grades a patient's descriptions of pictures. It keeps each
patient's cognitive baseline and flags deterioration against it.

This project models and proves the service's core:

- **The assessment engine** (`AnalisisService`):
  - a single picture analysis;
  - a questionnaire analysed in one call to the text-analysis model (Gemini);
  - a full assessment that turns the questionnaire into one record with means, a majority verdict, a four-level classification, observations and medical recommendations.
  - The engine decides baseline or follow-up from the patient's active baseline. It creates the baseline when there is none.
- **The repository** (`AnalisisRepository`): the tables of baselines, analyses and full assessments, and their queries. Creating a baseline supersedes the patient's active ones.
- **The text-analysis client** (`GeminiService`): the two prompts, the two code-fence clean-ups of the model's answer, and the error paths of a call.
- **The log table** (`LogRepository`): best-effort writes and four queries/purges.
- **The message consumer** (`RabbitMqConsumer`): routing a `<a>.<b>.<entity>.<action>` key to a handler, the payload key checks, and the error envelopes (400, or 404 for a missing row).

How the model is built:

- Every table is a sequence. The stores are classes whose methods change those sequences.
- Each engine operation is both a function and a method:
  - a pure function from the database before the call to the result and the database after it (`Analizar`, `AnalizarMultiple`, `ProcesarEvaluacion`);
  - a method that does the source's steps on an `AnalisisStore` (`RealizarAnalisis`, `RealizarAnalisisMultiple`, `ProcesarEvaluacionCompleta`). It is proved to end in exactly that function's state.
- The lemmas state the source's promises about those functions. The main invariant is that each patient has at most one active baseline, the last one created. Every operation keeps it.
- Values are mapped as follows:
  - Guids are natural numbers, handed out by a counter.
  - Dates are whole seconds and floats are reals.
  - Nullable values are `Option`.
  - A JSON decoding is a caller-supplied function returning `Malformed`, `JsonNull` or `Parsed(v)`.
- The text-analysis model's HTTP exchange is a caller-supplied function from prompt to reply. So are the JSON decoders, the metadata serialiser and `Guid.Parse`.
- The clock is a parameter.

Files:

| file | contents |
|---|---|
| `wrappers.dfy` | `Option`, `Result`, `Json` |
| `text.dfy` | trimming, prefix/suffix tests, `Replace(x, "")`, `ToUpper`, `Split` |
| `ordering.dfy` | LINQ `Where`, stable `OrderBy`/`OrderByDescending`, `Take`, `First`, `Sum`, `Count` |
| `entities.dfy` | the rows, requests, decoded answers and responses |
| `analisis_repository.dfy` | the repository and the `AnalisisStore` class |
| `log_repository.dfy` | the log queries and the `LogStore` class |
| `gemini_service.dfy` | prompts, clean-up, calls |
| `analisis_service.dfy` | the engine |
| `rabbitmq_consumer.dfy` | routing and handlers |

## Model

| member | source | states |
|---|---|---|
| LogRepository.LogStore.Registrar | Recorderfy.Analisys.Service.DAL/Repositories/LogRepository.cs:21-47 | appends exactly one entry, whose level is the input upper-cased, with the other fields as given; a null level or a failing write leaves the table as it was and nothing is raised |
| LogRepository.ObtenerLogs | Recorderfy.Analisys.Service.DAL/Repositories/LogRepository.cs:49-62 | at most `cantidad` entries (none for a count of zero), each at most as often as it is stored, all of the upper-cased level when one is given, newest first; no left-out matching entry is newer than one returned, and when fewer than `cantidad` are returned every matching entry is |
| LogRepository.ObtenerLogsPorFecha | Recorderfy.Analisys.Service.DAL/Repositories/LogRepository.cs:64-70 | exactly the entries with `inicio <= fecha <= fin` (both ends included), each as often as it occurs, newest first |
| LogRepository.ObtenerErroresRecientes | Recorderfy.Analisys.Service.DAL/Repositories/LogRepository.cs:72-80 | exactly the `ERROR` entries at or after `now - horas`, each as often as it is stored, newest first |
| LogRepository.LogStore.LimpiarLogsAntiguos | Recorderfy.Analisys.Service.DAL/Repositories/LogRepository.cs:82-95 | the table becomes the entries at or after `now - dias`, in order; the id counter is unchanged |
| LogRepository.SinAntiguos | Recorderfy.Analisys.Service.DAL/Repositories/LogRepository.cs:86-94 | when no entry is older than the limit the purge keeps the table exactly as it was |
| LogRepository.LimpiezaExacta | Recorderfy.Analisys.Service.DAL/Repositories/LogRepository.cs:84-92 | an entry survives the purge exactly when it is not older than the limit, and then with its full multiplicity; older entries all go |
| AnalisisRepository.AnalisisStore.CrearAnalisis | Recorderfy.Analisys.Service.DAL/Repositories/AnalisisRepository.cs:21-26 | appends exactly the given analysis, returns it unchanged, touches no other table |
| AnalisisRepository.ObtenerPorId | Recorderfy.Analisys.Service.DAL/Repositories/AnalisisRepository.cs:28-33 | `None` exactly when no analysis has the id; otherwise the first analysis with that id |
| AnalisisRepository.ObtenerPorPaciente | Recorderfy.Analisys.Service.DAL/Repositories/AnalisisRepository.cs:35-42 | exactly the patient's analyses, each as often as stored, newest first |
| AnalisisRepository.ObtenerLineaBasePorPaciente | Recorderfy.Analisys.Service.DAL/Repositories/AnalisisRepository.cs:44-50 | `None` exactly when the patient has no analysis marked as baseline; otherwise one such analysis that none of the others postdates |
| AnalisisRepository.ObtenerSeguimientos | Recorderfy.Analisys.Service.DAL/Repositories/AnalisisRepository.cs:52-59 | exactly the patient's non-baseline analyses, each as often as stored, newest first |
| AnalisisRepository.ExisteSiiObtener | Recorderfy.Analisys.Service.DAL/Repositories/AnalisisRepository.cs:61-73 | a patient has an active baseline exactly when the active-baseline lookup finds one |
| AnalisisRepository.LineaBaseActivaMasReciente | Recorderfy.Analisys.Service.DAL/Repositories/AnalisisRepository.cs:67-73 | the lookup is `None` exactly when the patient has no active baseline, else an active baseline of that patient that no other active one of theirs postdates |
| AnalisisRepository.Superseded | Recorderfy.Analisys.Service.DAL/Repositories/AnalisisRepository.cs:77-85 | the deactivation step leaves the patient no active baseline, changes only the `activa` flag, and leaves other patients' baselines as they were |
| AnalisisRepository.AnalisisStore.CrearLineaBase | Recorderfy.Analisys.Service.DAL/Repositories/AnalisisRepository.cs:75-90 | the loop deactivates every active baseline of the patient, then appends the new one; analyses, assessments and the id counter are untouched |
| AnalisisRepository.CrearLineaBaseEsLaActiva | Recorderfy.Analisys.Service.DAL/Repositories/AnalisisRepository.cs:75-90 | after creating an active baseline, the patient's active-baseline lookup returns exactly it |
| AnalisisRepository.CrearLineaBaseOtros | Recorderfy.Analisys.Service.DAL/Repositories/AnalisisRepository.cs:78-80 | creating a baseline for one patient leaves every other patient's lookup and existence test as they were |
| AnalisisRepository.CrearLineaBasePreserva | Recorderfy.Analisys.Service.DAL/Repositories/AnalisisRepository.cs:75-90 | creating a baseline keeps the invariant "an active baseline is its patient's last baseline" |
| AnalisisRepository.ActivaEsLaUltimaUnica | Recorderfy.Analisys.Service.DAL/Repositories/AnalisisRepository.cs:77-87 | that invariant implies each patient has at most one active baseline |
| AnalisisRepository.ConLineasBasePreserva | Recorderfy.Analisys.Service.DAL/Repositories/AnalisisRepository.cs:75-90 | after any series of creations each patient has at most one active baseline |
| AnalisisRepository.ConLineasBaseUltimaActiva | Recorderfy.Analisys.Service.DAL/Repositories/AnalisisRepository.cs:44-90 | after a series of creations, the last baseline created for a patient, when created active, is the one the patient's lookup returns |
| AnalisisRepository.ConLineasBaseOtros | Recorderfy.Analisys.Service.DAL/Repositories/AnalisisRepository.cs:75-90 | creations for other patients leave a patient's lookup unchanged |
| AnalisisRepository.ObtenerConDeterioro | Recorderfy.Analisys.Service.DAL/Repositories/AnalisisRepository.cs:98-105 | exactly the analyses whose deterioration flag is `true` (not `false`, not null), each as often as stored, newest first |
| AnalisisRepository.AnalisisStore.CrearEvaluacionCompleta | Recorderfy.Analisys.Service.DAL/Repositories/AnalisisRepository.cs:109-114 | appends exactly the given assessment, returns it unchanged, touches no other table |
| AnalisisRepository.ObtenerEvaluacionPorId | Recorderfy.Analisys.Service.DAL/Repositories/AnalisisRepository.cs:116-121 | `None` exactly when no assessment has the id; otherwise a stored assessment with that id |
| AnalisisRepository.ObtenerEvaluacionesPorPaciente | Recorderfy.Analisys.Service.DAL/Repositories/AnalisisRepository.cs:123-130 | exactly the patient's assessments, each as often as stored, newest first |
| AnalisisRepository.AnalisisStore.NuevoId | Recorderfy.Analisys.Service.Model/Entities/LineaBase.cs:44-50 | `Guid.NewGuid()` in the constructors: an id never handed out before, changing no table |
| GeminiService.Seccion | Recorderfy.Analisys.Service.BLL/Services/GeminiService.cs:143-145 | the baseline paragraph is "initial evaluation" exactly when there is no prior score, else it carries that score |
| GeminiService.ConstruirPrompt | Recorderfy.Analisys.Service.BLL/Services/GeminiService.cs:140-195 | the prompt carries both descriptions, the metadata or "No disponible" when it is null, and the initial-evaluation paragraph exactly when there is no prior score |
| GeminiService.ConstruirPromptCuestionarioCompleto | Recorderfy.Analisys.Service.BLL/Services/GeminiService.cs:301-385 | the loop's buffer is the question list (one numbered block per question), and the prompt asks for that many results with the baseline paragraph of the prior score |
| GeminiService.FormateadasPrefijo | Recorderfy.Analisys.Service.BLL/Services/GeminiService.cs:307-315 | the list built for the first `i` questions is a prefix of the whole list |
| GeminiService.BloqueEnOrden | Recorderfy.Analisys.Service.BLL/Services/GeminiService.cs:307-315 | question `i`'s block, headed "PREGUNTA #i+1", directly follows question `i-1`'s: the list runs #1..#N in input order |
| GeminiService.PromptCuestionarioPide | Recorderfy.Analisys.Service.BLL/Services/GeminiService.cs:303-382 | the questionnaire prompt asks for exactly as many results as questions, and its baseline paragraph depends only on whether a prior score is present |
| GeminiService.LimpiarRespuesta | Recorderfy.Analisys.Service.BLL/Services/GeminiService.cs:107-121 | the single-analysis clean-up result starts and ends with no white space |
| GeminiService.QuitarCercas | Recorderfy.Analisys.Service.BLL/Services/GeminiService.cs:113-120 | once "```json" is gone, dropping a leading and a trailing "```" from `body + "```"` gives back `body` |
| GeminiService.LimpiarCercado | Recorderfy.Analisys.Service.BLL/Services/GeminiService.cs:107-121 | "```json" + body + "```", with a body not starting with "```", cleans to the trimmed body |
| GeminiService.CercaJsonEsCerca | Recorderfy.Analisys.Service.BLL/Services/GeminiService.cs:109-116 | a text starting with "```json" also starts with "```" |
| GeminiService.LimpiarSinCercas | Recorderfy.Analisys.Service.BLL/Services/GeminiService.cs:107-121 | a text that, trimmed, neither starts nor ends with "```" cleans to its trimmed self |
| GeminiService.LimpiarRespuestaCuestionario | Recorderfy.Analisys.Service.BLL/Services/GeminiService.cs:272-277 | the questionnaire clean-up result has no outer white space, and a text not starting with "```json" is only trimmed |
| GeminiService.CuestionarioCercado | Recorderfy.Analisys.Service.BLL/Services/GeminiService.cs:272-277 | a backtick-free body in a "```json" .. "```" fence cleans to the trimmed body |
| GeminiService.LimpiezasCoinciden | Recorderfy.Analisys.Service.BLL/Services/GeminiService.cs:107-121 | on such a fenced body the single-analysis clean-up and the questionnaire clean-up (lines 272-277) agree |
| GeminiService.CuestionarioEspacioInicial | Recorderfy.Analisys.Service.BLL/Services/GeminiService.cs:273-277 | the questionnaire clean-up tests the raw text: a text with leading white space is only trimmed, whatever fences follow |
| GeminiService.AnalizarConGemini | Recorderfy.Analisys.Service.BLL/Services/GeminiService.cs:33-138 | a failed status throws with that status; a null or empty text throws "empty answer"; an unreadable envelope throws its own error; after a non-empty text, a malformed cleaned text throws, a JSON `null` gives the null answer, and a parsed answer is returned as decoded |
| GeminiService.RespuestaCuestionario | Recorderfy.Analisys.Service.BLL/Services/GeminiService.cs:251-288 | the same error paths for the questionnaire, each with its own error: malformed, `null`, and an answer without a summary (the success log reads it); success exactly when the cleaned text decodes to an answer with a summary, and then it is returned |
| GeminiService.AnalizarCuestionarioCompleto | Recorderfy.Analisys.Service.BLL/Services/GeminiService.cs:203-296 | builds the questionnaire prompt and returns the outcome of the call on it |
| GeminiService.VacioNoDecodifica | Recorderfy.Analisys.Service.BLL/Services/GeminiService.cs:265-270 | an empty answer text fails with "empty answer" whatever the decoders would do: nothing is decoded |
| AnalisisService.PuntajePrevioDeLaActiva | Recorderfy.Analisys.Service.BLL/Services/AnalisisService.cs:38-50 | the prior score given to the model is null exactly when the patient has no active baseline, else the initial score of an active baseline of theirs |
| AnalisisService.RealizarAnalisis | Recorderfy.Analisys.Service.BLL/Services/AnalisisService.cs:30-158 | the method's result and final database are exactly those of the single-analysis function on the initial database |
| AnalisisService.GuardarAnalisisUnico | Recorderfy.Analisys.Service.BLL/Services/AnalisisService.cs:74-150 | saving the record (and a first baseline when there is no active one) ends in exactly the saving function's response and database |
| AnalisisService.AnalizarFallaSinCambios | Recorderfy.Analisys.Service.BLL/Services/AnalisisService.cs:64-72 | a single analysis fails exactly when the model call fails or decodes to null, and a failure writes nothing |
| AnalisisService.AnalizarLineaBase | Recorderfy.Analisys.Service.BLL/Services/AnalisisService.cs:93-119 | success appends one record, which the response describes; a baseline is created exactly when the patient had no active baseline, with the record's global score, becomes the active one and is the record's baseline; otherwise no baseline changes and the record points to the existing one |
| AnalisisService.AnalizarPreserva | Recorderfy.Analisys.Service.BLL/Services/AnalisisService.cs:99-116 | a single analysis keeps the one-active-baseline invariant |
| AnalisisService.RealizarAnalisisMultiple | Recorderfy.Analisys.Service.BLL/Services/AnalisisService.cs:161-331 | the method's result and final database are exactly those of the questionnaire function on the initial database |
| AnalisisService.AnalizarMultipleGuarda | Recorderfy.Analisys.Service.BLL/Services/AnalisisService.cs:186-198 | any failure (model error, no results, result count different from question count) writes nothing; success means a complete answer went through the saving step |
| AnalisisService.GuardarCuestionarioCompleto | Recorderfy.Analisys.Service.BLL/Services/AnalisisService.cs:200-323 | preparing, baseline creation, back-fill and saving end in exactly the saving step's result and database |
| AnalisisService.PrepararRegistros | Recorderfy.Analisys.Service.BLL/Services/AnalisisService.cs:200-245 | the loop builds record `i` from request `i` and result `i` with a fresh id, and sums the results' global scores |
| AnalisisService.VincularLineaBase | Recorderfy.Analisys.Service.BLL/Services/AnalisisService.cs:267-271 | every prepared record, and nothing else of it, gets the new baseline's id |
| AnalisisService.RegistrosVinculados | Recorderfy.Analisys.Service.BLL/Services/AnalisisService.cs:267-271 | back-filled records equal the records built with that baseline id |
| AnalisisService.GuardarRegistros | Recorderfy.Analisys.Service.BLL/Services/AnalisisService.cs:280-318 | the loop appends the records in order and answers each with its response |
| AnalisisService.GuardarCuestionarioVacio | Recorderfy.Analisys.Service.BLL/Services/AnalisisService.cs:250-252 | an empty questionnaire creates no baseline and saves nothing |
| AnalisisService.GuardarCuestionarioRegistros | Recorderfy.Analisys.Service.BLL/Services/AnalisisService.cs:205-318 | saving appends one record per question in order, with fresh ids, for the patient and the question's picture; response `i` describes record `i`; every response carries the same (questionnaire-level) deterioration flag |
| AnalisisService.GuardarCuestionarioLineaBaseNueva | Recorderfy.Analisys.Service.BLL/Services/AnalisisService.cs:250-271 | without an active baseline, a non-empty questionnaire creates the patient's active baseline with the mean global score and marks every new record as a baseline record pointing to it |
| AnalisisService.NuevaLineaBaseActiva | Recorderfy.Analisys.Service.BLL/Services/AnalisisService.cs:250-265 | the appended baseline is for the patient, takes the id after the records', and becomes the active one |
| AnalisisService.NuevaLineaBaseMedia | Recorderfy.Analisys.Service.BLL/Services/AnalisisService.cs:244-261 | its initial score is the mean global score of the responses |
| AnalisisService.RespuestasMedia | Recorderfy.Analisys.Service.BLL/Services/AnalisisService.cs:233-302 | the responses' global scores sum to the model results' global scores |
| AnalisisService.NuevaLineaBaseVinculada | Recorderfy.Analisys.Service.BLL/Services/AnalisisService.cs:238-271 | every record of a first questionnaire is a baseline record pointing to the new baseline |
| AnalisisService.GuardarCuestionarioLineaBaseExistente | Recorderfy.Analisys.Service.BLL/Services/AnalisisService.cs:238-251 | with an active baseline no baseline changes and every new record is a follow-up pointing to it |
| AnalisisService.AnalizarMultiplePreserva | Recorderfy.Analisys.Service.BLL/Services/AnalisisService.cs:250-266 | a questionnaire keeps the one-active-baseline invariant |
| AnalisisService.Mayoria | Recorderfy.Analisys.Service.BLL/Services/AnalisisService.cs:477 | `flagged > processed / 2` in integer division holds exactly when `2 * flagged > processed` (2 of 4 is no majority, 3 of 4 is) |
| AnalisisService.NivelSii | Recorderfy.Analisys.Service.BLL/Services/AnalisisService.cs:572-584 | `estable` exactly when no deterioration or score >= 80; `leve`, `moderado`, `severo` exactly for the bands [70,80), [50,70), below 50 with deterioration |
| AnalisisService.NivelMonotono | Recorderfy.Analisys.Service.BLL/Services/AnalisisService.cs:572-584 | a lower mean score never gives a milder level |
| AnalisisService.ObservacionesGenerales | Recorderfy.Analisys.Service.BLL/Services/AnalisisService.cs:589-609 | the observations are the count and mean lines, the deterioration line, then the last question with the highest global score as best and the first with the lowest as hardest |
| AnalisisService.ObservacionesDeterioro | Recorderfy.Analisys.Service.BLL/Services/AnalisisService.cs:595-599 | the deterioration line appears exactly when some question flagged it, with the count of such questions and the total |
| AnalisisService.RecomendacionesSegunNivel | Recorderfy.Analisys.Service.BLL/Services/AnalisisService.cs:614-652 | every classified level has its fixed plan, one line longer per step of severity, and the plan holds an urgent referral exactly when deterioration was flagged with a mean below 70 |
| AnalisisService.ConvertirSii | Recorderfy.Analisys.Service.BLL/Services/AnalisisService.cs:400-406 | the conversion succeeds exactly when every picture id parses, giving request `i` for question `i`; otherwise it fails on the first unparsable picture id |
| AnalisisService.Acumular | Recorderfy.Analisys.Service.BLL/Services/AnalisisService.cs:414-461 | the loop's results pair question `i` with response `i` while both last, and its totals are the five score sums and the count of flagged results |
| AnalisisService.ConstruirEvaluacion | Recorderfy.Analisys.Service.BLL/Services/AnalisisService.cs:469-523 | the record computed from the running totals is the assessment of its results |
| AnalisisService.GuardarEvaluacion | Recorderfy.Analisys.Service.BLL/Services/AnalisisService.cs:413-560 | aggregating and saving end in exactly the aggregation function's result and database |
| AnalisisService.EvaluarFalla | Recorderfy.Analisys.Service.BLL/Services/AnalisisService.cs:463-467 | aggregation fails, with "no question processed" and no write, exactly when there is no response or no question |
| AnalisisService.EvaluarGuarda | Recorderfy.Analisys.Service.BLL/Services/AnalisisService.cs:424-560 | success appends exactly one assessment with a fresh id, described by the response; processed = min(responses, questions), total = questions; result `i` carries question `i`'s picture and response `i`'s id, score and flag |
| AnalisisService.EvaluarResumen | Recorderfy.Analisys.Service.BLL/Services/AnalisisService.cs:469-523 | the means are over the results; deterioration is the majority vote; the level, observations and recommendations are those of the mean and verdict; time is 30; baseline flag, baseline id, and difference = mean minus the prior baseline's score (null without one) |
| AnalisisService.EvaluarPromedioAcotado | Recorderfy.Analisys.Service.BLL/Services/AnalisisService.cs:470 | the mean global score lies within any bounds of the responses' global scores |
| AnalisisService.MayoriaUnanime | Recorderfy.Analisys.Service.BLL/Services/AnalisisService.cs:457-477 | when all results carry the same flag, the majority vote is that flag |
| AnalisisService.ProcesarEvaluacionCompleta | Recorderfy.Analisys.Service.BLL/Services/AnalisisService.cs:385-567 | the method's result and final database are exactly those of the full-assessment function on the initial database |
| AnalisisService.ProcesarPasos | Recorderfy.Analisys.Service.BLL/Services/AnalisisService.cs:392-409 | a successful full assessment parsed both ids, converted every question, ran the questionnaire successfully and aggregated its responses |
| AnalisisService.ProcesarFallaSinCambios | Recorderfy.Analisys.Service.BLL/Services/AnalisisService.cs:562-566 | a failed full assessment writes nothing: every failure comes before a write or after an empty (write-free) questionnaire |
| AnalisisService.ProcesarCompleto | Recorderfy.Analisys.Service.BLL/Services/AnalisisService.cs:400-560 | success needs at least one question, processes all of them, appends one analysis per question and one assessment, and answers with that assessment |
| AnalisisService.ProcesarResultados | Recorderfy.Analisys.Service.BLL/Services/AnalisisService.cs:424-448 | result `i` reports the analysis saved for question `i`: its picture, id, global score and patient |
| AnalisisService.CuestionarioEvaluadoResultados | Recorderfy.Analisys.Service.BLL/Services/AnalisisService.cs:424-448 | aggregating a saved questionnaire yields min(requests, questions) results, result `i` carrying question `i`'s picture and the id, global score, picture and patient of new record `i`; the database holds one new analysis record per request |
| AnalisisService.ConvertirImagenes | Recorderfy.Analisys.Service.BLL/Services/AnalisisService.cs:400-406 | a successful conversion gives one request per question, carrying the question's parsed picture id |
| AnalisisService.ProcesarDeterioroUnanime | Recorderfy.Analisys.Service.BLL/Services/AnalisisService.cs:447-477 | every individual result's flag equals the assessment's verdict, because the questionnaire copies one comparison to all questions (lines 235-237) |
| AnalisisService.CuestionarioEvaluadoUnanime | Recorderfy.Analisys.Service.BLL/Services/AnalisisService.cs:447-477 | the same for the aggregation of a saved questionnaire |
| AnalisisService.EvaluarUnanime | Recorderfy.Analisys.Service.BLL/Services/AnalisisService.cs:447-477 | when every response carries the same deterioration flag, every result and the majority verdict carry it |
| AnalisisService.ProcesarLineaBaseNueva | Recorderfy.Analisys.Service.BLL/Services/AnalisisService.cs:483-488 | a first full assessment creates the patient's active baseline with the assessment's mean global score, points to it, and has no difference |
| AnalisisService.ProcesarSeguimiento | Recorderfy.Analisys.Service.BLL/Services/AnalisisService.cs:489-496 | a follow-up points to the active baseline, reports mean minus its score, and changes no baseline |
| AnalisisService.CuestionarioEvaluadoSeguimiento | Recorderfy.Analisys.Service.BLL/Services/AnalisisService.cs:489-496 | the same for the aggregation of a saved follow-up questionnaire |
| AnalisisService.ProcesarPreserva | Recorderfy.Analisys.Service.BLL/Services/AnalisisService.cs:385-567 | a full assessment keeps the one-active-baseline invariant |
| RabbitMqConsumer.EnrutarClaveInvalida | Recorderfy.Analysis.Service.API/Consumer/RabbitMqConsumer.cs:128-129 | "Routing key inválido" (400) exactly when the key has fewer than four dot-separated segments |
| RabbitMqConsumer.EnrutarSii | Recorderfy.Analysis.Service.API/Consumer/RabbitMqConsumer.cs:128-178 | a key reaches a handler exactly when segment 2 is its entity and segment 3 its action; the other segments play no part |
| RabbitMqConsumer.EnrutarAccionDesconocida | Recorderfy.Analysis.Service.API/Consumer/RabbitMqConsumer.cs:149-178 | with a known entity, an action outside its table gives "Acción desconocida: " + action (400) |
| RabbitMqConsumer.LlaveAusente | Recorderfy.Analysis.Service.API/Consumer/RabbitMqConsumer.cs:211-214 | a dictionary handler answers a null payload or a missing key with its required-key error (400) before any lookup, writing nothing (likewise lines 232-233, 266-267, 310-311, 328-329) |
| RabbitMqConsumer.LlavesRequeridas | Recorderfy.Analysis.Service.API/Consumer/RabbitMqConsumer.cs:213-329 | the required-key texts per handler: pacienteId for the three patient reads, analisisId, evaluacionId |
| RabbitMqConsumer.AtenderFallaSinCambios | Recorderfy.Analysis.Service.API/Consumer/RabbitMqConsumer.cs:142-185 | only the two engine handlers write, and any error reply (caught exceptions included) leaves the database as it was |
| RabbitMqConsumer.StatusCode | Recorderfy.Analysis.Service.API/Consumer/RabbitMqConsumer.cs:228-281 | an error reply has status 400 or 404, and 404 exactly for a missing analysis or active baseline under a well-formed id |
| RabbitMqConsumer.DeterioroSinPayload | Recorderfy.Analysis.Service.API/Consumer/RabbitMqConsumer.cs:249-260 | `getDeterioro` ignores the payload and answers the analyses with deterioration |
| RabbitMqConsumer.ProcessMessageNoEnrutado | Recorderfy.Analysis.Service.API/Consumer/RabbitMqConsumer.cs:124-139 | an unroutable key gets its routing error (400) and writes nothing |

## Left out

- The logging calls inside the engine and the text-analysis client are no-ops: they are a best-effort side channel. `LogStore` models the log table itself.
- The HTTP exchange with the text-analysis model, its request body and headers, and JSON (de)serialisation are caller-supplied functions. So are the metadata serialisation and `Guid.Parse`. This is I/O that the model cannot see.
- RabbitMQ connection, consumption, ack/nack, reply publishing and `Dispose` (RabbitMqConsumer.cs 28-122, 356-361) are transport and background concurrency.
- `GetRequiredService` failures are host wiring and are not modelled.
- Envelopes are values, not serialised JSON. The `timestamp` field and the success message of `HandleProcesarEvaluacion` (it formats the mean with two decimals) are not modelled.
- A caught exception's message is the symbolic `Motivo.DeExcepcion`, not the .NET message text.
- `float` arithmetic is modelled as exact `real` arithmetic: no rounding. The "F2" formatting is not reproduced. The observation lines are kept as structured values, not rendered text.
- The fixed instruction text of the two prompts is not reproduced. A prompt is the record of its varying parts. The question list is literal text, with each `AppendLine` ending in `"\n"`. On Windows `Environment.NewLine` would be `"\r\n"`.
- `ToUpper` is modelled for ASCII and Latin-1 letters without culture rules.
- Strings are sequences of Unicode scalar values, not UTF-16 code units.
- A `null` description or id string in a request is not modelled.
- A dictionary payload whose id value is JSON `null` is not modelled.
- `DateTime.UtcNow` is one `now` per call: the several clock reads of one call are taken to agree.
- Ids from `Guid.NewGuid()` come from a counter, so they are unique by construction.
- Concurrency is not modelled: this includes two simultaneous assessments for one patient both creating a baseline.
- The stored fields `RespuestaLlmCompleta` of an analysis (the serialised model answer, AnalisisService.cs 95 and 240) and `FechaModificacion` of an assessment are not modelled. No modelled query reads them.
- `ActualizarLineaBaseAsync` (AnalisisRepository.cs 92-96) is an arbitrary overwrite that bypasses the supersede rule, and it is not part of the engine's flows.
- `ObtenerAnalisisPorIdAsync`, `ObtenerHistorialPacienteAsync` and `MapearAResponse` (AnalisisService.cs 333-378) are left out: they parse an int's decimal text as a Guid, which fails for essentially every input.
- The service read paths `ObtenerEvaluacionCompletaPorIdAsync` and `ObtenerEvaluacionesPorPacienteAsync` (AnalisisService.cs 657-830) rebuild responses from same-day analyses. They are not modelled. The consumer's two evaluation reads return the stored assessment rows from the repository instead.
- `GenerarRecomendacionesMedicas` ignores its score and flag parameters, as in the source. The model keeps them only in the signature.
- AnalisisService.ProcesarEvaluacion looks up the post-questionnaire baseline before aggregating, while the source looks it up after aggregating. This gives the same result, because the aggregation reads and writes no baseline.
- GeminiService.LimpiarRespuesta: the prefix and suffix tests are ordinal. The source's `StartsWith(string)`/`EndsWith(string)` compare by the current culture, which can ignore characters such as U+200B that `Trim` keeps. The model matches the source only under invariant globalization.
- GeminiService.LimpiarRespuestaCuestionario: the prefix test is ordinal, with the same culture caveat as GeminiService.LimpiarRespuesta.
- LogRepository.ObtenerLogs: a negative `cantidad` gives an empty list in the model. The source's `Take` becomes a SQL `LIMIT`, and PostgreSQL most likely rejects a negative limit with an error, which the model does not represent.
- Database write failures are not modelled, except in `LogStore.Registrar`. The questionnaire's `SaveChanges` calls and the assessment's are not wrapped in one transaction. So "a failure writes nothing" in AnalisisService.ProcesarFallaSinCambios and RabbitMqConsumer.AtenderFallaSinCambios holds only when the database never fails between them.
- A log insert that fails, for example an `ex.ToString()` longer than the 5000-character `Mensaje` column (AnalisisService.cs 564, ApplicationDbContext.cs 92-94), may stay tracked in the scoped database context that the service shares. A later `SaveChanges` in the same scope would then retry it. The model treats each log write as independent.
- LogRepository.ObtenerLogs: the contract does not fix the relative order of entries with equal dates. The function itself keeps the stable sort's order.
- LogRepository.ObtenerLogsPorFecha: the contract does not fix the relative order of entries with equal dates.
- LogRepository.ObtenerErroresRecientes: the contract does not fix the relative order of entries with equal dates.
- AnalisisRepository.ObtenerPorPaciente: the contract does not fix the relative order of analyses with equal dates.
- AnalisisRepository.ObtenerSeguimientos: the contract does not fix the relative order of analyses with equal dates.
- AnalisisRepository.ObtenerConDeterioro: the contract does not fix the relative order of analyses with equal dates.
- AnalisisRepository.ObtenerEvaluacionesPorPaciente: the contract does not fix the relative order of assessments with equal dates.
- AnalisisRepository.LineaBaseActivaMasReciente: among active baselines with the same latest date, the contract does not say which one is returned. The function returns the first in table order.
- AnalisisRepository.ObtenerLineaBasePorPaciente: among equally recent matches, the contract does not say which one is returned.
- AnalisisRepository.ObtenerEvaluacionPorId: the contract says a stored assessment with that id, not the first one.
