/**
 * The scheduler object (`PlanificadorBase` and `PlanificadorRoundRobin` of
 * src/core/scheduler.py, folded into one class). Its methods update the
 * process objects and its own fields in place; each is proved against the
 * value-level step of module RoundRobin.
 */
module Planificador {
  import opened Opciones
  import opened Procesos
  import opened RoundRobin
  import opened Invariante
  import opened Metricas

  /** No process object is held twice. */
  ghost predicate Distintos(ps: seq<Proceso>) {
    forall a, b :: 0 <= a < |ps| && 0 <= b < |ps| && a != b ==> ps[a] != ps[b]
  }

  /** The current field values of a sequence of process objects. */
  function Vistas(ps: seq<Proceso>): (vs: seq<Registro>)
    reads ps
    ensures |vs| == |ps|
  {
    seq(|ps|, j requires 0 <= j < |ps| reads ps => ps[j].Vista())
  }

  class PlanificadorRoundRobin {
    var procesos: seq<Proceso>
    var procesoActual: Option<nat>
    var tiempoActual: int
    var tiempoCpuOcupada: int
    var procesosFinalizados: seq<nat>
    var historialEstados: Historial
    const quantum: int
    var colaListos: seq<nat>

    /** The scheduler's whole state as a value. */
    function Abstraccion(): Estado
      reads this, procesos
    {
      Estado(Vistas(procesos), colaListos, procesoActual, tiempoActual,
             tiempoCpuOcupada, procesosFinalizados, historialEstados)
    }

    ghost predicate Valid()
      reads this, procesos
    {
      Distintos(procesos) && Inv(Abstraccion(), quantum)
    }

    /**
     * `PlanificadorRoundRobin(quantum)`: no process, empty slot, queue, finished
     * list and history, clock and busy counter at 0. The source does not check
     * the quantum; it must be positive for the step to be defined.
     */
    constructor (quantum: int)
      requires quantum > 0
      ensures Valid()
      ensures this.quantum == quantum && Abstraccion() == Vacio()
    {
      procesos := [];
      procesoActual := None;
      tiempoActual := 0;
      tiempoCpuOcupada := 0;
      procesosFinalizados := [];
      historialEstados := map[];
      this.quantum := quantum;
      colaListos := [];
      new;
      VacioInv(quantum);
    }

    /** `agregar_proceso`: appends a new process, nothing else changes. */
    method AgregarProceso(proceso: Proceso)
      requires Valid()
      requires proceso !in procesos && Admisible(proceso.Vista())
      modifies this
      ensures Valid()
      ensures procesos == old(procesos) + [proceso]
      ensures Abstraccion() == old(Abstraccion()).(procs := old(Abstraccion().procs) + [proceso.Vista()])
    {
      ghost var s := Abstraccion();
      procesos := procesos + [proceso];
      assert Vistas(procesos) == s.procs + [proceso.Vista()];
      AgregarPreserva(s, quantum, proceso.Vista());
    }

    /**
     * `registrar_estado_proceso`: files the process's state under the current
     * tick. Only the history changes, so the scheduler stays valid.
     */
    method RegistrarEstadoProceso(proceso: Proceso)
      modifies this`historialEstados
      ensures historialEstados == Registrar(old(historialEstados), tiempoActual, proceso.id, proceso.estado)
      ensures Abstraccion() == old(Abstraccion()).(historial := historialEstados)
      ensures old(Valid()) ==> Valid()
    {
      ghost var s := Abstraccion();
      ghost var valido := Valid();
      if tiempoActual !in historialEstados {
        historialEstados := historialEstados[tiempoActual := map[]];
      }
      var estado := "";
      if proceso.estado == Ejecutando {
        estado := "E";
      } else if proceso.estado == Listo {
        estado := "L";
      } else if proceso.estado == Finalizado {
        estado := "F";
      }
      historialEstados := historialEstados[tiempoActual := historialEstados[tiempoActual][proceso.id := estado]];
      assert Abstraccion() == s.(historial := historialEstados);
      if valido {
        HistorialLibre(s, quantum, historialEstados);
      }
    }

    /** `obtener_metricas`. */
    function ObtenerMetricas(): (m: Option<InformeMetricas>)
      reads this, procesos
      requires Valid()
      ensures m.None? <==> procesosFinalizados == []
    {
      InvMedible(Abstraccion(), quantum);
      Calcular(Abstraccion())
    }

    /**
     * One iteration of the admission pass over process `i`: admission, the
     * wait tick of a LISTO process, and the record in the history.
     */
    method AdmitirProceso(i: nat)
      requires i < |procesos| && Distintos(procesos)
      modifies this`colaListos, this`historialEstados, procesos[i]
      ensures procesos[i].Vista() == Admitir(old(procesos[i].Vista()), tiempoActual)
      ensures forall k :: 0 <= k < |procesos| && k != i ==> procesos[k].Vista() == old(procesos[k].Vista())
      ensures colaListos == old(colaListos) + (if Llega(old(procesos[i].Vista()), tiempoActual) then [i] else [])
      ensures historialEstados == Registrar(old(historialEstados), tiempoActual, procesos[i].id, procesos[i].estado)
    {
      var proceso := procesos[i];
      if proceso.estado == Nuevo && proceso.tiempoLlegada <= tiempoActual {
        proceso.estado := Listo;
        colaListos := colaListos + [i];
        if proceso.tiempoRespuesta.None? {
          proceso.tiempoRespuesta := Some(tiempoActual - proceso.tiempoLlegada);
        }
      }
      if proceso.estado == Listo {
        proceso.tiempoEspera := proceso.tiempoEspera + 1;
      }
      RegistrarEstadoProceso(proceso);
    }

    /**
     * The first part of `tick`: in insertion order, admit each process that has
     * arrived, charge a wait tick to each LISTO process and record its state.
     */
    method AdmitirLlegados()
      requires Distintos(procesos)
      modifies this`colaListos, this`historialEstados, procesos
      ensures procesos == old(procesos)
      ensures Vistas(procesos) == AdmitirTodos(old(Vistas(procesos)), tiempoActual)
      ensures colaListos == old(colaListos) + Llegados(old(Vistas(procesos)), tiempoActual, |procesos|)
      ensures historialEstados == RegistrarTodos(old(historialEstados), tiempoActual, Vistas(procesos))
    {
      ghost var v0 := Vistas(procesos);
      ghost var ps1 := AdmitirTodos(v0, tiempoActual);
      var i := 0;
      while i < |procesos|
        invariant 0 <= i <= |procesos|
        invariant procesos == old(procesos)
        invariant forall k :: 0 <= k < i ==> procesos[k].Vista() == ps1[k]
        invariant forall k :: i <= k < |procesos| ==> procesos[k].Vista() == v0[k]
        invariant colaListos == old(colaListos) + Llegados(v0, tiempoActual, i)
        invariant historialEstados == RegistrarTodos(old(historialEstados), tiempoActual, ps1[..i])
      {
        assert procesos[i].Vista() == v0[i];
        AdmitirProceso(i);
        AdmisionUnoMas(old(colaListos), old(historialEstados), v0, tiempoActual, i);
        i := i + 1;
      }
      assert ps1[..i] == ps1;
      assert Vistas(procesos) == ps1;
    }

    /**
     * The dispatch part of `tick`: the front of the ready queue takes the empty
     * slot and becomes EJECUTANDO; its start time is set if unset.
     */
    method Despachar()
      requires Distintos(procesos) && Formado(Abstraccion())
      requires procesoActual.None? && colaListos != [] && colaListos[0] < |procesos|
      modifies this`colaListos, this`procesoActual, procesos[colaListos[0]]
      ensures procesos == old(procesos)
      ensures Abstraccion() == Despacho(old(Abstraccion()))
    {
      ghost var s := Abstraccion();
      var siguiente := colaListos[0];
      assert siguiente in s.cola;
      colaListos := colaListos[1..];
      procesoActual := Some(siguiente);
      var p := procesos[siguiente];
      p.estado := Ejecutando;
      if p.tiempoComienzo.None? {
        p.tiempoComienzo := Some(tiempoActual);
      }
      forall k | 0 <= k < |procesos| && k != siguiente
        ensures procesos[k].Vista() == s.procs[k]
      {
        assert procesos[k] != p;
      }
      assert Vistas(procesos) == Despacho(s).procs;
    }

    /**
     * The execution part of `tick`: the running process loses one unit of
     * remaining time, the busy counter grows and its state is recorded.
     */
    method Consumir()
      requires Distintos(procesos) && Formado(Abstraccion())
      requires procesoActual.Some? && procesoActual.value < |procesos|
      modifies this`tiempoCpuOcupada, this`historialEstados, procesos[procesoActual.value]
      ensures procesos == old(procesos)
      ensures Abstraccion() == Consumo(old(Abstraccion()))
    {
      ghost var s := Abstraccion();
      var p := procesos[procesoActual.value];
      p.tiempoRestante := p.tiempoRestante - 1;
      tiempoCpuOcupada := tiempoCpuOcupada + 1;
      RegistrarEstadoProceso(p);
      forall k | 0 <= k < |procesos| && k != procesoActual.value
        ensures procesos[k].Vista() == s.procs[k]
      {
        assert procesos[k] != p;
      }
      assert Vistas(procesos) == Consumo(s).procs;
    }

    /**
     * The end of `tick`: the process in the slot finishes, is preempted at a
     * quantum boundary, or keeps the slot; then the clock advances.
     */
    method Decidir()
      requires Distintos(procesos) && Formado(Abstraccion()) && quantum > 0
      requires procesoActual.Some? && procesoActual.value < |procesos|
      modifies this`procesoActual, this`colaListos, this`procesosFinalizados,
        this`tiempoActual, procesos[procesoActual.value]
      ensures procesos == old(procesos)
      ensures Abstraccion() == Decision(old(Abstraccion()), quantum)
    {
      ghost var s := Abstraccion();
      ghost var d := Decision(s, quantum);
      var idx := procesoActual.value;
      var p := procesos[idx];
      if p.tiempoRestante == 0 {
        p.estado := Finalizado;
        p.tiempoFinalizacion := Some(tiempoActual + 1);
        procesosFinalizados := procesosFinalizados + [idx];
        procesoActual := None;
      } else if (tiempoActual + 1) % quantum == 0 {
        p.estado := Listo;
        colaListos := colaListos + [idx];
        procesoActual := None;
      }
      tiempoActual := tiempoActual + 1;
      forall k | 0 <= k < |procesos| && k != idx
        ensures procesos[k].Vista() == s.procs[k]
      {
        assert procesos[k] != p;
      }
      assert Vistas(procesos) == d.procs;
      assert colaListos == d.cola && procesoActual == d.actual && procesosFinalizados == d.finalizados;
    }

    /**
     * The rest of `tick` after the admission pass: with the slot and the queue
     * both empty only the clock advances; otherwise the slot is filled from the
     * queue if empty and the running process executes one unit.
     */
    method ManejarActual()
      requires Distintos(procesos) && Formado(Abstraccion()) && quantum > 0
      modifies this`procesoActual, this`colaListos, this`procesosFinalizados,
        this`tiempoActual, this`tiempoCpuOcupada, this`historialEstados, procesos
      ensures procesos == old(procesos)
      ensures Abstraccion() == Ejecucion(Despacho(old(Abstraccion())), quantum)
    {
      ghost var s1 := Abstraccion();
      if procesoActual.None? {
        if colaListos == [] {
          tiempoActual := tiempoActual + 1;
          return;
        }
        assert colaListos[0] in s1.cola;
        Despachar();
      }
      assert procesoActual.value < |procesos|;
      Consumir();
      Decidir();
    }

    /**
     * `tick`: one Round-Robin step. Returns whether some process has not
     * finished. The notification of observers is not modelled.
     */
    method Tick() returns (continua: bool)
      requires Valid()
      modifies this, procesos
      ensures Valid()
      ensures procesos == old(procesos)
      ensures Abstraccion() == Paso(old(Abstraccion()), quantum)
      ensures continua == Continua(Abstraccion())
    {
      ghost var s0 := Abstraccion();
      PasoPreservaInv(s0, quantum);
      AdmitirLlegados();
      assert Abstraccion() == Admision(s0);
      ManejarActual();
      continua := |procesosFinalizados| < |procesos|;
    }
  }
}
