/**
 * The baselines, analyses and full-assessment tables (`AnalisisRepository`).
 *
 * The tables are sequences held by `AnalisisStore`; the queries are functions of those
 * sequences. Creating a baseline supersedes the patient's active baselines, which keeps the
 * invariant that a patient's active baseline, if any, is the last baseline created for them.
 */
module AnalisisRepository {
  import opened Wrappers
  import opened Entities
  import opened Ordering

  function FechaEstablecimiento(b: LineaBase): real { b.fechaEstablecimiento as real }
  function FechaAnalisis(a: AnalisisCognitivo): real { a.fechaAnalisis as real }
  function FechaEvaluacion(e: EvaluacionCompleta): real { e.fechaEvaluacion as real }

  /** `lb.PacienteId == pacienteId && lb.Activa`. */
  predicate ActivaDe(b: LineaBase, p: Id)
  {
    b.pacienteId == p && b.activa
  }

  // ---------------------------------------------------------------- baselines

  /** `ExisteLineaBaseAsync`: whether the patient has an active baseline. */
  predicate ExisteLineaBase(bs: seq<LineaBase>, p: Id)
  {
    exists i :: 0 <= i < |bs| && ActivaDe(bs[i], p)
  }

  /**
   * `ObtenerLineaBaseActivaAsync`: the first of the patient's active baselines ordered by
   * establishment date, newest first; `None` when the patient has none.
   */
  function ObtenerLineaBaseActiva(bs: seq<LineaBase>, p: Id): Option<LineaBase>
  {
    FirstDesc(bs, b => ActivaDe(b, p), FechaEstablecimiento)
  }

  /**
   * The lookup finds nothing exactly when the patient has no active baseline, and otherwise
   * one of the patient's active baselines that no other active one of theirs postdates.
   */
  lemma LineaBaseActivaMasReciente(bs: seq<LineaBase>, p: Id)
    ensures var r := ObtenerLineaBaseActiva(bs, p);
      && (r.None? <==> forall i :: 0 <= i < |bs| ==> !ActivaDe(bs[i], p))
      && (r.Some? ==> r.value in bs && ActivaDe(r.value, p))
      && (r.Some? ==> forall b :: b in bs && ActivaDe(b, p) ==>
            b.fechaEstablecimiento <= r.value.fechaEstablecimiento)
  {
  }

  /** An active baseline exists exactly when the lookup finds one. */
  lemma ExisteSiiObtener(bs: seq<LineaBase>, p: Id)
    ensures ExisteLineaBase(bs, p) <==> ObtenerLineaBaseActiva(bs, p).Some?
  {
    LineaBaseActivaMasReciente(bs, p);
  }

  /** `lb.Activa = false` on a baseline the creation selects (an active one of patient `p`). */
  function Desactivar(b: LineaBase, p: Id): LineaBase
  {
    if ActivaDe(b, p) then b.(activa := false) else b
  }

  /** The baselines table after every active baseline of `p` is deactivated. */
  function Superseded(bs: seq<LineaBase>, p: Id): (r: seq<LineaBase>)
    ensures |r| == |bs|
    ensures forall i :: 0 <= i < |r| ==> !ActivaDe(r[i], p)
    ensures forall i :: 0 <= i < |r| ==> r[i].(activa := bs[i].activa) == bs[i]
    ensures forall i :: 0 <= i < |r| && bs[i].pacienteId != p ==> r[i] == bs[i]
  {
    seq(|bs|, i requires 0 <= i < |bs| => Desactivar(bs[i], p))
  }

  /** The baselines table after `CrearLineaBaseAsync(b)`. */
  function ConLineaBase(bs: seq<LineaBase>, b: LineaBase): seq<LineaBase>
  {
    Superseded(bs, b.pacienteId) + [b]
  }

  /** Each patient has at most one active baseline. */
  predicate AlMasUnaActiva(bs: seq<LineaBase>)
  {
    forall i, j ::
      (0 <= i < |bs| && 0 <= j < |bs| && bs[i].activa && bs[j].activa && bs[i].pacienteId == bs[j].pacienteId)
      ==> i == j
  }

  /** An active baseline is the last baseline of its patient in the table. */
  predicate ActivaEsLaUltima(bs: seq<LineaBase>)
  {
    forall i, j :: 0 <= i < j < |bs| && bs[i].activa ==> bs[j].pacienteId != bs[i].pacienteId
  }

  /** The table invariant implies exclusivity. */
  lemma ActivaEsLaUltimaUnica(bs: seq<LineaBase>)
    requires ActivaEsLaUltima(bs)
    ensures AlMasUnaActiva(bs)
  {
  }

  /** Creating a baseline keeps the table invariant. */
  lemma CrearLineaBasePreserva(bs: seq<LineaBase>, b: LineaBase)
    requires ActivaEsLaUltima(bs)
    ensures ActivaEsLaUltima(ConLineaBase(bs, b))
  {
    var r := ConLineaBase(bs, b);
    var s := Superseded(bs, b.pacienteId);
    forall i, j | 0 <= i < j < |r| && r[i].activa
      ensures r[j].pacienteId != r[i].pacienteId
    {
      assert r[i] == s[i];
      assert bs[i].activa && bs[i].pacienteId == r[i].pacienteId;
      if j < |s| {
        assert r[j] == s[j];
        assert bs[j].pacienteId == r[j].pacienteId;
      } else {
        assert r[j] == b;
        assert !ActivaDe(s[i], b.pacienteId);
      }
    }
  }

  /** After the creation of an active baseline it is its patient's active baseline. */
  lemma CrearLineaBaseEsLaActiva(bs: seq<LineaBase>, b: LineaBase)
    requires b.activa
    ensures ObtenerLineaBaseActiva(ConLineaBase(bs, b), b.pacienteId) == Some(b)
  {
    var p := b.pacienteId;
    var s := Superseded(bs, p);
    var r := s + [b];
    assert ActivaDe(r[|s|], p);
    LineaBaseActivaMasReciente(r, p);
    var o := ObtenerLineaBaseActiva(r, p);
    var k :| 0 <= k < |r| && r[k] == o.value;
  }

  /** Filtering on another patient's active baselines does not see a creation for `p`. */
  lemma {:induction false} FilterSuperseded(bs: seq<LineaBase>, p: Id, q: Id)
    requires p != q
    ensures Filter(Superseded(bs, p), b => ActivaDe(b, q)) == Filter(bs, b => ActivaDe(b, q))
  {
    if bs != [] {
      FilterSuperseded(bs[1..], p, q);
      assert Superseded(bs, p)[1..] == Superseded(bs[1..], p);
      assert ActivaDe(Superseded(bs, p)[0], q) == ActivaDe(bs[0], q);
    }
  }

  /** Creating a baseline for one patient leaves every other patient's lookup as it was. */
  lemma CrearLineaBaseOtros(bs: seq<LineaBase>, b: LineaBase, q: Id)
    requires q != b.pacienteId
    ensures ObtenerLineaBaseActiva(ConLineaBase(bs, b), q) == ObtenerLineaBaseActiva(bs, q)
    ensures ExisteLineaBase(ConLineaBase(bs, b), q) == ExisteLineaBase(bs, q)
  {
    var act := (x: LineaBase) => ActivaDe(x, q);
    FilterSuperseded(bs, b.pacienteId, q);
    FilterAppend(Superseded(bs, b.pacienteId), [b], act);
    assert Filter([b], act) == [];
    assert Filter(ConLineaBase(bs, b), act) == Filter(bs, act);
    ExisteSiiObtener(bs, q);
    ExisteSiiObtener(ConLineaBase(bs, b), q);
  }

  /** The baselines table after a series of creations, in order. */
  function ConLineasBase(bs: seq<LineaBase>, nuevas: seq<LineaBase>): seq<LineaBase>
    decreases |nuevas|
  {
    if nuevas == [] then bs else ConLineasBase(ConLineaBase(bs, nuevas[0]), nuevas[1..])
  }

  /**
   * Starting from an empty (or any invariant-respecting) table, any series of creations leaves
   * each patient at most one active baseline, the last one created for them.
   */
  lemma {:induction false} ConLineasBasePreserva(bs: seq<LineaBase>, nuevas: seq<LineaBase>)
    requires ActivaEsLaUltima(bs)
    ensures ActivaEsLaUltima(ConLineasBase(bs, nuevas))
    ensures AlMasUnaActiva(ConLineasBase(bs, nuevas))
    decreases |nuevas|
  {
    if nuevas != [] {
      CrearLineaBasePreserva(bs, nuevas[0]);
      ConLineasBasePreserva(ConLineaBase(bs, nuevas[0]), nuevas[1..]);
    } else {
      ActivaEsLaUltimaUnica(bs);
    }
  }

  /** Creations for other patients leave a patient's lookup as it was. */
  lemma {:induction false} ConLineasBaseOtros(bs: seq<LineaBase>, nuevas: seq<LineaBase>, q: Id)
    requires forall j :: 0 <= j < |nuevas| ==> nuevas[j].pacienteId != q
    ensures ObtenerLineaBaseActiva(ConLineasBase(bs, nuevas), q) == ObtenerLineaBaseActiva(bs, q)
    decreases |nuevas|
  {
    if nuevas != [] {
      CrearLineaBaseOtros(bs, nuevas[0], q);
      ConLineasBaseOtros(ConLineaBase(bs, nuevas[0]), nuevas[1..], q);
    }
  }

  /**
   * After a series of creations, the last baseline created for a patient, when it was created
   * active, is the one the patient's lookup returns.
   */
  lemma {:induction false} ConLineasBaseUltimaActiva(bs: seq<LineaBase>, nuevas: seq<LineaBase>, k: nat)
    requires k < |nuevas| && nuevas[k].activa
    requires forall j :: k < j < |nuevas| ==> nuevas[j].pacienteId != nuevas[k].pacienteId
    ensures ObtenerLineaBaseActiva(ConLineasBase(bs, nuevas), nuevas[k].pacienteId) == Some(nuevas[k])
    decreases |nuevas|
  {
    var b1 := ConLineaBase(bs, nuevas[0]);
    if k == 0 {
      CrearLineaBaseEsLaActiva(bs, nuevas[0]);
      ConLineasBaseOtros(b1, nuevas[1..], nuevas[0].pacienteId);
    } else {
      ConLineasBaseUltimaActiva(b1, nuevas[1..], k - 1);
    }
  }

  // ---------------------------------------------------------------- analyses and assessments

  /** `ObtenerPorIdAsync`: the first analysis with that id. */
  function ObtenerPorId(rs: seq<AnalisisCognitivo>, id: Id): (r: Option<AnalisisCognitivo>)
    ensures r.None? <==> forall i :: 0 <= i < |rs| ==> rs[i].id != id
    ensures r.Some? ==> r.value.id == id && exists k ::
      0 <= k < |rs| && rs[k] == r.value && (forall i :: 0 <= i < k ==> rs[i].id != id)
  {
    if rs == [] then None
    else if rs[0].id == id then Some(rs[0])
    else
      var r := ObtenerPorId(rs[1..], id);
      assert r.Some? ==> exists k ::
        0 <= k < |rs| && rs[k] == r.value && (forall i :: 0 <= i < k ==> rs[i].id != id) by {
        if r.Some? {
          var k :| 0 <= k < |rs[1..]| && rs[1..][k] == r.value && (forall i :: 0 <= i < k ==> rs[1..][i].id != id);
          assert rs[k + 1] == r.value;
        }
      }
      r
  }

  /** `ObtenerPorPacienteAsync`: the patient's analyses, newest first. */
  function ObtenerPorPaciente(rs: seq<AnalisisCognitivo>, p: Id): (r: seq<AnalisisCognitivo>)
    ensures forall a :: a in r <==> a in rs && a.pacienteId == p
    ensures forall a :: a in rs ==> multiset(r)[a] == if a.pacienteId == p then multiset(rs)[a] else 0
    ensures forall i, j :: 0 <= i < j < |r| ==> r[j].fechaAnalisis <= r[i].fechaAnalisis
  {
    WhereOrderByDesc(rs, (a: AnalisisCognitivo) => a.pacienteId == p, FechaAnalisis)
  }

  /** `ObtenerLineaBasePorPacienteAsync`: the patient's newest analysis marked as baseline. */
  function ObtenerLineaBasePorPaciente(rs: seq<AnalisisCognitivo>, p: Id): (r: Option<AnalisisCognitivo>)
    ensures r.None? <==> forall i :: 0 <= i < |rs| ==> !(rs[i].pacienteId == p && rs[i].esLineaBase)
    ensures r.Some? ==> r.value in rs && r.value.pacienteId == p && r.value.esLineaBase
    ensures r.Some? ==> forall a :: a in rs && a.pacienteId == p && a.esLineaBase ==>
      a.fechaAnalisis <= r.value.fechaAnalisis
  {
    FirstDesc(rs, (a: AnalisisCognitivo) => a.pacienteId == p && a.esLineaBase, FechaAnalisis)
  }

  /** `ObtenerSeguimientosPorPacienteAsync`: the patient's follow-up analyses, newest first. */
  function ObtenerSeguimientos(rs: seq<AnalisisCognitivo>, p: Id): (r: seq<AnalisisCognitivo>)
    ensures forall a :: a in r <==> a in rs && a.pacienteId == p && !a.esLineaBase
    ensures forall a :: a in rs ==>
      multiset(r)[a] == if a.pacienteId == p && !a.esLineaBase then multiset(rs)[a] else 0
    ensures forall i, j :: 0 <= i < j < |r| ==> r[j].fechaAnalisis <= r[i].fechaAnalisis
  {
    WhereOrderByDesc(rs, (a: AnalisisCognitivo) => a.pacienteId == p && !a.esLineaBase, FechaAnalisis)
  }

  /** `ObtenerAnalisisConDeterioroAsync`: every analysis whose deterioration flag is `true`, newest first. */
  function ObtenerConDeterioro(rs: seq<AnalisisCognitivo>): (r: seq<AnalisisCognitivo>)
    ensures forall a :: a in r <==> a in rs && a.deterioroDetectado == Some(true)
    ensures forall a :: a in rs ==>
      multiset(r)[a] == if a.deterioroDetectado == Some(true) then multiset(rs)[a] else 0
    ensures forall i, j :: 0 <= i < j < |r| ==> r[j].fechaAnalisis <= r[i].fechaAnalisis
  {
    WhereOrderByDesc(rs, (a: AnalisisCognitivo) => a.deterioroDetectado == Some(true), FechaAnalisis)
  }

  /** `ObtenerEvaluacionCompletaPorIdAsync`: the first full assessment with that id. */
  function ObtenerEvaluacionPorId(es: seq<EvaluacionCompleta>, id: Id): (r: Option<EvaluacionCompleta>)
    ensures r.None? <==> forall i :: 0 <= i < |es| ==> es[i].id != id
    ensures r.Some? ==> r.value in es && r.value.id == id
  {
    if es == [] then None
    else if es[0].id == id then Some(es[0])
    else ObtenerEvaluacionPorId(es[1..], id)
  }

  /** `ObtenerEvaluacionesPorPacienteAsync`: the patient's full assessments, newest first. */
  function ObtenerEvaluacionesPorPaciente(es: seq<EvaluacionCompleta>, p: Id): (r: seq<EvaluacionCompleta>)
    ensures forall e :: e in r <==> e in es && e.pacienteId == p
    ensures forall e :: e in es ==> multiset(r)[e] == if e.pacienteId == p then multiset(es)[e] else 0
    ensures forall i, j :: 0 <= i < j < |r| ==> r[j].fechaEvaluacion <= r[i].fechaEvaluacion
  {
    WhereOrderByDesc(es, (e: EvaluacionCompleta) => e.pacienteId == p, FechaEvaluacion)
  }

  // ---------------------------------------------------------------- the store

  /** A snapshot of the database: the three tables and the next fresh id. */
  datatype Tablas = Tablas(
    lineasBase: seq<LineaBase>,
    analisis: seq<AnalisisCognitivo>,
    evaluaciones: seq<EvaluacionCompleta>,
    nextId: Id)

  /** The service's database: the three tables, and the source of fresh ids. */
  class AnalisisStore {
    var lineasBase: seq<LineaBase>
    var analisis: seq<AnalisisCognitivo>
    var evaluaciones: seq<EvaluacionCompleta>
    var nextId: Id

    /** An empty database. */
    constructor ()
      ensures lineasBase == [] && analisis == [] && evaluaciones == [] && nextId == 0
    {
      lineasBase := [];
      analisis := [];
      evaluaciones := [];
      nextId := 0;
    }

    /** The current contents of the database. */
    function Estado(): Tablas
      reads this
    {
      Tablas(lineasBase, analisis, evaluaciones, nextId)
    }

    /** `Guid.NewGuid()`: an id never handed out before. */
    method NuevoId() returns (id: Id)
      modifies this
      ensures id == old(nextId) && nextId == old(nextId) + 1
      ensures lineasBase == old(lineasBase) && analisis == old(analisis) && evaluaciones == old(evaluaciones)
    {
      id := nextId;
      nextId := nextId + 1;
    }

    /** `CrearAnalisisAsync`: appends the analysis and returns it unchanged. */
    method CrearAnalisis(a: AnalisisCognitivo) returns (guardado: AnalisisCognitivo)
      modifies this
      ensures guardado == a
      ensures analisis == old(analisis) + [a]
      ensures lineasBase == old(lineasBase) && evaluaciones == old(evaluaciones) && nextId == old(nextId)
    {
      analisis := analisis + [a];
      guardado := a;
    }

    /** `CrearEvaluacionCompletaAsync`: appends the assessment and returns it unchanged. */
    method CrearEvaluacionCompleta(e: EvaluacionCompleta) returns (guardada: EvaluacionCompleta)
      modifies this
      ensures guardada == e
      ensures evaluaciones == old(evaluaciones) + [e]
      ensures lineasBase == old(lineasBase) && analisis == old(analisis) && nextId == old(nextId)
    {
      evaluaciones := evaluaciones + [e];
      guardada := e;
    }

    /**
     * `CrearLineaBaseAsync`: deactivates every active baseline of the patient, then appends
     * the new one. Analyses, assessments and other patients' baselines are untouched.
     */
    method CrearLineaBase(b: LineaBase) returns (creada: LineaBase)
      modifies this
      ensures creada == b
      ensures lineasBase == ConLineaBase(old(lineasBase), b)
      ensures analisis == old(analisis) && evaluaciones == old(evaluaciones) && nextId == old(nextId)
    {
      var i := 0;
      while i < |lineasBase|
        invariant 0 <= i <= |lineasBase| == |old(lineasBase)|
        invariant forall k :: 0 <= k < i ==> lineasBase[k] == Desactivar(old(lineasBase)[k], b.pacienteId)
        invariant forall k :: i <= k < |lineasBase| ==> lineasBase[k] == old(lineasBase)[k]
        invariant analisis == old(analisis) && evaluaciones == old(evaluaciones) && nextId == old(nextId)
      {
        if ActivaDe(lineasBase[i], b.pacienteId) {
          lineasBase := lineasBase[i := lineasBase[i].(activa := false)];
        }
        i := i + 1;
      }
      assert lineasBase == Superseded(old(lineasBase), b.pacienteId);
      lineasBase := lineasBase + [b];
      creada := b;
    }
  }
}
