/**
 * The log table (`LogRepository`): best-effort writes that upper-case the level and never
 * fail, and four queries over the table, with the clock passed in.
 */
module LogRepository {
  import opened Wrappers
  import opened Entities
  import opened Ordering
  import opened Text

  function FechaRegistro(l: LogSistema): real { l.fechaRegistro as real }

  /** `!string.IsNullOrEmpty(nivel)`. */
  predicate TieneNivel(nivel: Option<string>)
  {
    nivel.Some? && nivel.value != []
  }

  /** The entries `ObtenerLogsAsync` considers: all, or those of the upper-cased level. */
  predicate DelNivel(l: LogSistema, nivel: Option<string>)
  {
    !TieneNivel(nivel) || l.nivel == ToUpper(nivel.value)
  }

  /** The query's selector for a given level. */
  function Seleccion(nivel: Option<string>): LogSistema -> bool
  {
    l => DelNivel(l, nivel)
  }

  /**
   * `ObtenerLogsAsync(cantidad, nivel)`: the `cantidad` newest entries (of the level, when one
   * is given). A count of zero or less gives none.
   */
  function ObtenerLogs(logs: seq<LogSistema>, cantidad: int, nivel: Option<string>): (r: seq<LogSistema>)
    ensures |r| <= if cantidad < 0 then 0 else cantidad
    ensures forall l :: l in r ==> l in logs && DelNivel(l, nivel)
    ensures TieneNivel(nivel) ==> forall l :: l in r ==> l.nivel == ToUpper(nivel.value)
    ensures forall i, j :: 0 <= i < j < |r| ==> r[j].fechaRegistro <= r[i].fechaRegistro
    ensures forall i, k ::
      (0 <= i < |logs| && DelNivel(logs[i], nivel) && 0 <= k < |r| && r[k].fechaRegistro < logs[i].fechaRegistro)
      ==> logs[i] in r
    ensures |r| < cantidad ==> forall i :: 0 <= i < |logs| && DelNivel(logs[i], nivel) ==> logs[i] in r
    ensures multiset(r) <= multiset(logs)
  {
    ObtenerLogsTope(logs, cantidad, nivel);
    ObtenerLogsOrden(logs, cantidad, nivel);
    Take(WhereOrderByDesc(logs, Seleccion(nivel), FechaRegistro), cantidad)
  }

  /** The newest-first listing cut at `cantidad` leaves out no newer matching entry. */
  lemma ObtenerLogsTope(logs: seq<LogSistema>, cantidad: int, nivel: Option<string>)
    ensures var r := Take(WhereOrderByDesc(logs, Seleccion(nivel), FechaRegistro), cantidad);
      && (forall i, k ::
            (0 <= i < |logs| && DelNivel(logs[i], nivel) && 0 <= k < |r| && r[k].fechaRegistro < logs[i].fechaRegistro)
            ==> logs[i] in r)
      && (|r| < cantidad ==> forall i :: 0 <= i < |logs| && DelNivel(logs[i], nivel) ==> logs[i] in r)
  {
    var ordenados := WhereOrderByDesc(logs, Seleccion(nivel), FechaRegistro);
    TakeTop(logs, Seleccion(nivel), FechaRegistro, ordenados, cantidad);
  }

  /** The newest-first listing cut at `cantidad` is a bounded, ordered sub-multiset of the matches. */
  lemma ObtenerLogsOrden(logs: seq<LogSistema>, cantidad: int, nivel: Option<string>)
    ensures var r := Take(WhereOrderByDesc(logs, Seleccion(nivel), FechaRegistro), cantidad);
      && |r| <= (if cantidad < 0 then 0 else cantidad)
      && (forall l :: l in r ==> l in logs && DelNivel(l, nivel))
      && (forall i, j :: 0 <= i < j < |r| ==> r[j].fechaRegistro <= r[i].fechaRegistro)
      && multiset(r) <= multiset(logs)
  {
    var ordenados := WhereOrderByDesc(logs, Seleccion(nivel), FechaRegistro);
    WhereOrderByDescSub(logs, Seleccion(nivel), FechaRegistro);
    TakeSub(ordenados, cantidad);
  }

  /** `ObtenerLogsPorFechaAsync`: the entries from `inicio` to `fin`, both included, newest first. */
  function ObtenerLogsPorFecha(logs: seq<LogSistema>, inicio: Time, fin: Time): (r: seq<LogSistema>)
    ensures forall l :: l in r <==> l in logs && inicio <= l.fechaRegistro <= fin
    ensures forall l :: l in logs ==>
      multiset(r)[l] == if inicio <= l.fechaRegistro <= fin then multiset(logs)[l] else 0
    ensures forall i, j :: 0 <= i < j < |r| ==> r[j].fechaRegistro <= r[i].fechaRegistro
  {
    WhereOrderByDesc(logs, (l: LogSistema) => inicio <= l.fechaRegistro <= fin, FechaRegistro)
  }

  /** `DateTime.UtcNow.AddHours(-horas)`. */
  function HaceHoras(now: Time, horas: int): Time
  {
    now - horas * SecondsPerHour
  }

  /** The default retention of `LimpiarLogsAntiguosAsync`, in days. */
  const DiasRetencionPorDefecto: int := 30

  /** `DateTime.UtcNow.AddDays(-dias)`. */
  function HaceDias(now: Time, dias: int): Time
  {
    now - dias * SecondsPerDay
  }

  /** `ObtenerErroresRecientesAsync(horas)`: the `ERROR` entries of the last `horas` hours, newest first. */
  function ObtenerErroresRecientes(logs: seq<LogSistema>, horas: int, now: Time): (r: seq<LogSistema>)
    ensures forall l :: l in r <==> l in logs && l.nivel == "ERROR" && l.fechaRegistro >= HaceHoras(now, horas)
    ensures forall l :: l in logs ==>
      multiset(r)[l] == if l.nivel == "ERROR" && l.fechaRegistro >= HaceHoras(now, horas) then multiset(logs)[l] else 0
    ensures forall i, j :: 0 <= i < j < |r| ==> r[j].fechaRegistro <= r[i].fechaRegistro
  {
    var limite := HaceHoras(now, horas);
    WhereOrderByDesc(logs, (l: LogSistema) => l.nivel == "ERROR" && l.fechaRegistro >= limite, FechaRegistro)
  }

  /** Entries `LimpiarLogsAntiguosAsync` keeps: those not older than the limit. */
  predicate Retenido(l: LogSistema, limite: Time)
  {
    l.fechaRegistro >= limite
  }

  /** The purge's selector for a given limit. */
  function Retencion(limite: Time): LogSistema -> bool
  {
    l => Retenido(l, limite)
  }

  /** The log table and the source of fresh ids. */
  class LogStore {
    var logs: seq<LogSistema>
    var nextId: Id

    /** An empty log table. */
    constructor ()
      ensures logs == [] && nextId == 0
    {
      logs := [];
      nextId := 0;
    }

    /**
     * `RegistrarAsync`: appends one entry whose level is the given level upper-cased, stamped
     * `now`. A `null` level (whose `ToUpper` throws) or a failing database (`falla`) leaves
     * the table as it was: the error is caught and only written to the console.
     */
    method Registrar(nivel: Option<string>, componente: string, mensaje: string,
                     excepcion: Option<string>, datosAdicionales: Option<string>,
                     usuarioId: Option<Id>, endpoint: Option<string>, now: Time, falla: bool)
      modifies this
      ensures nivel.None? || falla ==> logs == old(logs) && nextId == old(nextId)
      ensures nivel.Some? && !falla ==> (nextId == old(nextId) + 1 && logs == old(logs) +
        [LogSistema(old(nextId), ToUpper(nivel.value), componente, mensaje, excepcion, datosAdicionales,
                    now, usuarioId, endpoint)])
    {
      if nivel.Some? && !falla {
        var log := LogSistema(nextId, ToUpper(nivel.value), componente, mensaje, excepcion, datosAdicionales,
                              now, usuarioId, endpoint);
        nextId := nextId + 1;
        logs := logs + [log];
      }
    }

    /**
     * `LimpiarLogsAntiguosAsync(dias)`: removes exactly the entries older than `dias` days
     * before `now`, keeping the others in order; with no such entry nothing is written.
     */
    method LimpiarLogsAntiguos(dias: int, now: Time)
      modifies this
      ensures logs == Filter(old(logs), Retencion(HaceDias(now, dias)))
      ensures nextId == old(nextId)
    {
      var limite := HaceDias(now, dias);
      var antiguos := Filter(logs, (l: LogSistema) => l.fechaRegistro < limite);
      if |antiguos| > 0 {
        logs := Filter(logs, Retencion(limite));
      } else {
        SinAntiguos(logs, limite);
      }
    }
  }

  /** With no entry older than the limit, the purge keeps the table as it is. */
  lemma {:induction false} SinAntiguos(logs: seq<LogSistema>, limite: Time)
    requires Filter(logs, (l: LogSistema) => l.fechaRegistro < limite) == []
    ensures Filter(logs, Retencion(limite)) == logs
  {
    if logs != [] {
      assert logs[0].fechaRegistro >= limite;
      SinAntiguos(logs[1..], limite);
    }
  }

  /** The purge keeps exactly the entries at or after the limit, each as often as it occurred. */
  lemma LimpiezaExacta(logs: seq<LogSistema>, limite: Time, l: LogSistema)
    ensures l in Filter(logs, Retencion(limite)) <==> l in logs && l.fechaRegistro >= limite
    ensures multiset(Filter(logs, Retencion(limite)))[l] == if l.fechaRegistro >= limite then multiset(logs)[l] else 0
  {
    FilterMultiplicity(logs, Retencion(limite), l);
    assert l in Filter(logs, Retencion(limite)) <==> l in multiset(Filter(logs, Retencion(limite)));
  }
}
