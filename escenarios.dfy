/**
 * Two concrete runs with quantum 2, stepped tick by tick: a single process,
 * and two processes that arrive together. Each tick is a lemma about any
 * state with the given fields, whatever its history.
 */
module Escenarios {
  import opened Opciones
  import opened Procesos
  import opened RoundRobin
  import opened Invariante
  import opened Corrida
  import opened Metricas

  /** The state has these fields; its history may be anything. */
  predicate Campos(e: Estado, ps: seq<Registro>, cola: seq<nat>, actual: Option<nat>, t: int, ocupada: int, fin: seq<nat>) {
    && e.procs == ps && e.cola == cola && e.actual == actual && e.tiempo == t
    && e.ocupada == ocupada && e.finalizados == fin
  }

  // ---------------------------------------------------------------------
  // One process P1 (arrival 0, burst 3)
  // ---------------------------------------------------------------------

  lemma UnoTick1(s: Estado)
    requires Campos(s, [Inicial(1, 0, 3, None)], [], None, 0, 0, [])
    ensures Inv(s, 2)
    ensures Campos(Paso(s, 2), [Registro(1, 0, 3, None, Ejecutando, 2, 1, Some(0), None, Some(0))], [], Some(0), 1, 1, [])
  {
    assert Ubicado(s, 0);
  }

  lemma UnoTick2(s: Estado)
    requires Formado(s)
    requires Campos(s, [Registro(1, 0, 3, None, Ejecutando, 2, 1, Some(0), None, Some(0))], [], Some(0), 1, 1, [])
    ensures Campos(Paso(s, 2), [Registro(1, 0, 3, None, Listo, 1, 1, Some(0), None, Some(0))], [0], None, 2, 2, [])
  {
  }

  lemma UnoTick3(s: Estado)
    requires Formado(s)
    requires Campos(s, [Registro(1, 0, 3, None, Listo, 1, 1, Some(0), None, Some(0))], [0], None, 2, 2, [])
    ensures Campos(Paso(s, 2), [Registro(1, 0, 3, None, Finalizado, 0, 2, Some(0), Some(3), Some(0))], [], None, 3, 3, [0])
  {
  }

  /**
   * P1 executes in ticks 1 and 2, is preempted at the boundary after tick 2,
   * takes the slot again at once and finishes in tick 3: completion 3, wait
   * 2, response 0 (so turnaround 3), and `tick` then returns false.
   */
  lemma EscenarioUno(s0: Estado)
    requires Campos(s0, [Inicial(1, 0, 3, None)], [], None, 0, 0, [])
    ensures Inv(s0, 2)
    ensures Campos(Iter(s0, 3, 2), [Registro(1, 0, 3, None, Finalizado, 0, 2, Some(0), Some(3), Some(0))], [], None, 3, 3, [0])
    ensures !Continua(Iter(s0, 3, 2))
  {
    UnoTick1(s0);
    IterSiguiente(s0, 2, 2);
    var e1 := Paso(s0, 2);
    UnoTick2(e1);
    IterSiguiente(e1, 1, 2);
    var e2 := Paso(e1, 2);
    UnoTick3(e2);
    IterSiguiente(e2, 0, 2);
  }

  // ---------------------------------------------------------------------
  // P1 (arrival 0, burst 3) and P2 (arrival 0, burst 2)
  // ---------------------------------------------------------------------

  lemma DosTick1(s: Estado)
    requires Campos(s, [Inicial(1, 0, 3, None), Inicial(2, 0, 2, None)], [], None, 0, 0, [])
    ensures Inv(s, 2)
    ensures Campos(Paso(s, 2), [Registro(1, 0, 3, None, Ejecutando, 2, 1, Some(0), None, Some(0)),
                                Registro(2, 0, 2, None, Listo, 2, 1, Some(0), None, None)], [1], Some(0), 1, 1, [])
  {
    assert Ubicado(s, 0) && Ubicado(s, 1);
  }

  lemma DosTick2(s: Estado)
    requires Formado(s)
    requires Campos(s, [Registro(1, 0, 3, None, Ejecutando, 2, 1, Some(0), None, Some(0)),
                        Registro(2, 0, 2, None, Listo, 2, 1, Some(0), None, None)], [1], Some(0), 1, 1, [])
    ensures Campos(Paso(s, 2), [Registro(1, 0, 3, None, Listo, 1, 1, Some(0), None, Some(0)),
                                Registro(2, 0, 2, None, Listo, 2, 2, Some(0), None, None)], [1, 0], None, 2, 2, [])
  {
  }

  lemma DosTick3(s: Estado)
    requires Formado(s)
    requires Campos(s, [Registro(1, 0, 3, None, Listo, 1, 1, Some(0), None, Some(0)),
                        Registro(2, 0, 2, None, Listo, 2, 2, Some(0), None, None)], [1, 0], None, 2, 2, [])
    ensures Campos(Paso(s, 2), [Registro(1, 0, 3, None, Listo, 1, 2, Some(0), None, Some(0)),
                                Registro(2, 0, 2, None, Ejecutando, 1, 3, Some(0), None, Some(2))], [0], Some(1), 3, 3, [])
  {
  }

  lemma DosTick4(s: Estado)
    requires Formado(s)
    requires Campos(s, [Registro(1, 0, 3, None, Listo, 1, 2, Some(0), None, Some(0)),
                        Registro(2, 0, 2, None, Ejecutando, 1, 3, Some(0), None, Some(2))], [0], Some(1), 3, 3, [])
    ensures Campos(Paso(s, 2), [Registro(1, 0, 3, None, Listo, 1, 3, Some(0), None, Some(0)),
                                Registro(2, 0, 2, None, Finalizado, 0, 3, Some(0), Some(4), Some(2))], [0], None, 4, 4, [1])
  {
  }

  lemma DosTick5(s: Estado)
    requires Formado(s)
    requires Campos(s, [Registro(1, 0, 3, None, Listo, 1, 3, Some(0), None, Some(0)),
                        Registro(2, 0, 2, None, Finalizado, 0, 3, Some(0), Some(4), Some(2))], [0], None, 4, 4, [1])
    ensures Campos(Paso(s, 2), [Registro(1, 0, 3, None, Finalizado, 0, 4, Some(0), Some(5), Some(0)),
                                Registro(2, 0, 2, None, Finalizado, 0, 3, Some(0), Some(4), Some(2))], [], None, 5, 5, [1, 0])
  {
  }

  /** The report at the end of the second run. */
  lemma DosMetricas(e: Estado)
    requires Campos(e, [Registro(1, 0, 3, None, Finalizado, 0, 4, Some(0), Some(5), Some(0)),
                        Registro(2, 0, 2, None, Finalizado, 0, 3, Some(0), Some(4), Some(2))], [], None, 5, 5, [1, 0])
    ensures Medible(e.procs, e.finalizados)
    ensures Calcular(e) == Some(InformeMetricas(5, 100.0, 3.5, 4.5, 2, 2))
  {
    assert SumaEspera(e.procs, e.finalizados) == 7;
    assert SumaRetorno(e.procs, e.finalizados) == 9;
  }

  /**
   * P1 executes in ticks 1-2 and is preempted; P2 executes in ticks 3-4 and
   * finishes at 4; P1 finishes at 5. The finished order is P2, P1 and the CPU
   * was busy in all 5 ticks. The waits are 4 and 3, because a process
   * admitted in a pass is charged a wait tick in the same pass. `tick`
   * returns true after tick 4 and false after tick 5; the report gives
   * utilisation 100, mean wait 3.5 and mean turnaround 4.5.
   */
  lemma EscenarioDos(s0: Estado)
    requires Campos(s0, [Inicial(1, 0, 3, None), Inicial(2, 0, 2, None)], [], None, 0, 0, [])
    ensures Inv(s0, 2)
    ensures Continua(Iter(s0, 4, 2))
    ensures Campos(Iter(s0, 5, 2), [Registro(1, 0, 3, None, Finalizado, 0, 4, Some(0), Some(5), Some(0)),
                                    Registro(2, 0, 2, None, Finalizado, 0, 3, Some(0), Some(4), Some(2))], [], None, 5, 5, [1, 0])
    ensures !Continua(Iter(s0, 5, 2))
    ensures Medible(Iter(s0, 5, 2).procs, Iter(s0, 5, 2).finalizados)
    ensures Calcular(Iter(s0, 5, 2)) == Some(InformeMetricas(5, 100.0, 3.5, 4.5, 2, 2))
  {
    DosTick1(s0);
    IterSiguiente(s0, 4, 2);
    IterSiguiente(s0, 3, 2);
    var e1 := Paso(s0, 2);
    DosTick2(e1);
    IterSiguiente(e1, 3, 2);
    IterSiguiente(e1, 2, 2);
    var e2 := Paso(e1, 2);
    DosTick3(e2);
    IterSiguiente(e2, 2, 2);
    IterSiguiente(e2, 1, 2);
    var e3 := Paso(e2, 2);
    DosTick4(e3);
    IterSiguiente(e3, 1, 2);
    IterSiguiente(e3, 0, 2);
    var e4 := Paso(e3, 2);
    DosTick5(e4);
    IterSiguiente(e4, 0, 2);
    DosMetricas(Paso(e4, 2));
  }
}
