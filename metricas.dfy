/**
 * `obtener_metricas` (src/core/scheduler.py): statistics over the finished
 * processes. Averages and the utilisation are exact reals.
 */
module Metricas {
  import opened Opciones
  import opened Procesos
  import opened RoundRobin

  /** The dictionary `obtener_metricas` returns when some process has finished. */
  datatype InformeMetricas = InformeMetricas(
    tiempoTotal: int,
    utilizacionCpu: real,
    tiempoEsperaPromedio: real,
    tiempoRetornoPromedio: real,
    totalProcesos: int,
    procesosFinalizados: int)

  /** Every finished index names a process whose completion time is set. */
  predicate Medible(ps: seq<Registro>, fin: seq<nat>) {
    forall k :: k in fin ==> k < |ps| && ps[k].tiempoFinalizacion.Some?
  }

  lemma MedibleRecorte(ps: seq<Registro>, fin: seq<nat>)
    requires Medible(ps, fin) && fin != []
    ensures Medible(ps, fin[..|fin| - 1]) && fin[|fin| - 1] in fin
    ensures forall k :: k in fin[..|fin| - 1] ==> k in fin
  {
    var pre := fin[..|fin| - 1];
    forall k | k in pre ensures k in fin {
      var j :| 0 <= j < |pre| && pre[j] == k;
      assert fin[j] == k;
    }
  }

  /** `sum(p.tiempo_espera for p in procesos_finalizados)`. */
  function SumaEspera(ps: seq<Registro>, fin: seq<nat>): int
    requires Medible(ps, fin)
    decreases |fin|
  {
    if fin == [] then 0
    else
      MedibleRecorte(ps, fin);
      SumaEspera(ps, fin[..|fin| - 1]) + ps[fin[|fin| - 1]].tiempoEspera
  }

  /** `sum(p.tiempo_retorno for p in procesos_finalizados)`. */
  function SumaRetorno(ps: seq<Registro>, fin: seq<nat>): int
    requires Medible(ps, fin)
    decreases |fin|
  {
    if fin == [] then 0
    else
      MedibleRecorte(ps, fin);
      SumaRetorno(ps, fin[..|fin| - 1]) + ps[fin[|fin| - 1]].TiempoRetorno().value
  }

  /** The total burst of the finished processes. */
  function SumaEjecucion(ps: seq<Registro>, fin: seq<nat>): int
    requires Medible(ps, fin)
    decreases |fin|
  {
    if fin == [] then 0
    else
      MedibleRecorte(ps, fin);
      SumaEjecucion(ps, fin[..|fin| - 1]) + ps[fin[|fin| - 1]].tiempoEjecucion
  }

  /**
   * `obtener_metricas`: nothing while no process has finished; otherwise the
   * clock, the busy share of the clock in percent (0 for a clock at 0), the
   * mean wait and turnaround over the finished processes, and the two counts.
   */
  function Calcular(s: Estado): (m: Option<InformeMetricas>)
    requires Medible(s.procs, s.finalizados)
    ensures m.None? <==> s.finalizados == []
    ensures m.Some? ==>
      && m.value.tiempoTotal == s.tiempo
      && m.value.totalProcesos == |s.procs|
      && m.value.procesosFinalizados == |s.finalizados|
      && m.value.tiempoEsperaPromedio * (|s.finalizados| as real) == SumaEspera(s.procs, s.finalizados) as real
      && m.value.tiempoRetornoPromedio * (|s.finalizados| as real) == SumaRetorno(s.procs, s.finalizados) as real
      && (s.tiempo > 0 ==> m.value.utilizacionCpu * (s.tiempo as real) == (s.ocupada as real) * 100.0)
      && (s.tiempo <= 0 ==> m.value.utilizacionCpu == 0.0)
  {
    if s.finalizados == [] then None
    else
      var n := |s.finalizados| as real;
      var espera := SumaEspera(s.procs, s.finalizados) as real / n;
      var retorno := SumaRetorno(s.procs, s.finalizados) as real / n;
      var utilizacion := if s.tiempo > 0 then (s.ocupada as real) / (s.tiempo as real) * 100.0 else 0.0;
      Some(InformeMetricas(s.tiempo, utilizacion, espera, retorno, |s.procs|, |s.finalizados|))
  }

  /** In a state that satisfies the invariant every finished process has its completion time. */
  lemma InvMedible(s: Estado, q: int)
    requires Inv(s, q)
    ensures Medible(s.procs, s.finalizados)
  {
    forall k | k in s.finalizados ensures k < |s.procs| && s.procs[k].tiempoFinalizacion.Some? {
      assert Ubicado(s, k);
    }
  }

  /**
   * A finished process spent at least its burst between arrival and
   * completion, so the turnaround total covers the burst total.
   */
  lemma {:induction false} RetornoCubreEjecucion(ps: seq<Registro>, fin: seq<nat>)
    requires Medible(ps, fin)
    requires forall k :: k in fin ==> ps[k].tiempoEjecucion <= ps[k].TiempoRetorno().value
    ensures SumaEjecucion(ps, fin) <= SumaRetorno(ps, fin)
    decreases |fin|
  {
    if fin != [] {
      MedibleRecorte(ps, fin);
      RetornoCubreEjecucion(ps, fin[..|fin| - 1]);
    }
  }

  /**
   * Once some process has finished, the report exists, the clock is positive,
   * the utilisation is a percentage, and the mean turnaround is at least the
   * mean burst of the finished processes.
   */
  lemma MetricasAcotadas(s: Estado, q: int)
    requires Inv(s, q) && s.finalizados != []
    ensures Medible(s.procs, s.finalizados)
    ensures Calcular(s).Some?
    ensures s.tiempo > 0
    ensures 0.0 <= Calcular(s).value.utilizacionCpu <= 100.0
    ensures SumaEjecucion(s.procs, s.finalizados) <= SumaRetorno(s.procs, s.finalizados)
    ensures Calcular(s).value.tiempoRetornoPromedio * (|s.finalizados| as real)
      >= SumaEjecucion(s.procs, s.finalizados) as real
  {
    InvMedible(s, q);
    var k := s.finalizados[0];
    assert k in s.finalizados;
    assert Ubicado(s, k);
    EjecucionBajoRetorno(s, q);
    Porcentaje(s.ocupada as real, s.tiempo as real);
  }

  /** Under the invariant the turnaround total of the finished processes covers their burst total. */
  lemma EjecucionBajoRetorno(s: Estado, q: int)
    requires Inv(s, q)
    ensures Medible(s.procs, s.finalizados)
    ensures SumaEjecucion(s.procs, s.finalizados) <= SumaRetorno(s.procs, s.finalizados)
  {
    InvMedible(s, q);
    forall j | j in s.finalizados
      ensures s.procs[j].tiempoEjecucion <= s.procs[j].TiempoRetorno().value
    {
      assert Ubicado(s, j);
    }
    RetornoCubreEjecucion(s.procs, s.finalizados);
  }

  /** A part of a positive whole, in percent, lies between 0 and 100. */
  lemma Porcentaje(o: real, t: real)
    requires 0.0 <= o <= t && t > 0.0
    ensures 0.0 <= o / t * 100.0 <= 100.0
  {
    assert o / t <= 1.0;
  }
}
