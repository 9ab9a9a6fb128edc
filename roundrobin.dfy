/**
 * The Round-Robin step as a function on values (src/core/scheduler.py). One
 * tick is three stages, in the order the scheduler runs them: the admission
 * and wait-accounting pass, dispatch from the ready queue, and one unit of
 * execution followed by the finish-or-preempt decision and the clock advance.
 *
 * The queue, the running slot and the finished list hold indices into the
 * process sequence, so a process is referred to by its position.
 */
module RoundRobin {
  import opened Opciones
  import opened Procesos

  /** `historial_estados`: tick -> process id -> one-letter state code. */
  type Historial = map<int, map<int, string>>

  /** The scheduler's state at a tick boundary (or between two stages of a tick). */
  datatype Estado = Estado(
    procs: seq<Registro>,
    cola: seq<nat>,
    actual: Option<nat>,
    tiempo: int,
    ocupada: int,
    finalizados: seq<nat>,
    historial: Historial)

  predicate SinRepetidos(xs: seq<nat>) {
    forall a, b :: 0 <= a < b < |xs| ==> xs[a] != xs[b]
  }

  /** Every index the state holds names a process. */
  predicate Formado(s: Estado) {
    && (forall k :: k in s.cola ==> k < |s.procs|)
    && (forall k :: k in s.finalizados ==> k < |s.procs|)
    && (s.actual.Some? ==> s.actual.value < |s.procs|)
  }

  /** The tick never touches identity, arrival, burst or priority. */
  predicate MismaIdentidad(ps: seq<Registro>, ps': seq<Registro>) {
    && |ps'| == |ps|
    && forall j :: 0 <= j < |ps| ==>
         && ps'[j].id == ps[j].id
         && ps'[j].tiempoLlegada == ps[j].tiempoLlegada
         && ps'[j].tiempoEjecucion == ps[j].tiempoEjecucion
         && ps'[j].prioridad == ps[j].prioridad
  }

  // ---------------------------------------------------------------------
  // The state history
  // ---------------------------------------------------------------------

  /** The one-letter code of a state: E, L, F, and the empty text for NUEVO. */
  function Codigo(e: EstadoProceso): (c: string)
    ensures c == "" <==> e == Nuevo
  {
    match e
    case Ejecutando => "E"
    case Listo => "L"
    case Finalizado => "F"
    case Nuevo => ""
  }

  function FilaEn(h: Historial, t: int): map<int, string> {
    if t in h then h[t] else map[]
  }

  /**
   * `registrar_estado_proceso`: files the code of a process's state under the
   * current tick, creating that tick's row when it is missing.
   */
  function Registrar(h: Historial, t: int, id: int, e: EstadoProceso): Historial
  {
    h[t := FilaEn(h, t)[id := Codigo(e)]]
  }

  /**
   * Registering adds tick `t` if missing, files `id` under it with the code of
   * `e`, and leaves every other tick and every other id of that tick alone.
   */
  lemma RegistrarEfecto(h: Historial, t: int, id: int, e: EstadoProceso)
    ensures Registrar(h, t, id, e).Keys == h.Keys + {t}
    ensures forall u :: u in h && u != t ==> Registrar(h, t, id, e)[u] == h[u]
    ensures Registrar(h, t, id, e)[t].Keys == FilaEn(h, t).Keys + {id}
    ensures Registrar(h, t, id, e)[t][id] == Codigo(e)
    ensures forall k :: k in FilaEn(h, t) && k != id ==> Registrar(h, t, id, e)[t][k] == FilaEn(h, t)[k]
  {
  }

  /** Registering every record of `ps`, in order, under tick `t`. */
  function RegistrarTodos(h: Historial, t: int, ps: seq<Registro>): (h': Historial)
    ensures forall u :: u in h && u != t ==> u in h' && h'[u] == h[u]
    decreases |ps|
  {
    if ps == [] then h
    else
      var r := ps[|ps| - 1];
      Registrar(RegistrarTodos(h, t, ps[..|ps| - 1]), t, r.id, r.estado)
  }

  // ---------------------------------------------------------------------
  // Stage 1: admission and wait accounting
  // ---------------------------------------------------------------------

  /** A NUEVO process whose arrival time has come. */
  predicate Llega(r: Registro, t: int) {
    r.estado == Nuevo && r.tiempoLlegada <= t
  }

  /**
   * One process in the admission pass: admitted if it arrives (its response
   * time set only if unset), then charged one wait tick if it is LISTO.
   */
  function Admitir(r: Registro, t: int): (r': Registro)
    ensures r'.estado == if Llega(r, t) then Listo else r.estado
    ensures r'.tiempoEspera == r.tiempoEspera + (if r'.estado == Listo then 1 else 0)
    ensures r'.tiempoRespuesta == if Llega(r, t) && r.tiempoRespuesta.None? then Some(t - r.tiempoLlegada) else r.tiempoRespuesta
    ensures r' == r.(estado := r'.estado, tiempoEspera := r'.tiempoEspera, tiempoRespuesta := r'.tiempoRespuesta)
  {
    var r1 :=
      if Llega(r, t) then
        r.(estado := Listo,
           tiempoRespuesta := if r.tiempoRespuesta.None? then Some(t - r.tiempoLlegada) else r.tiempoRespuesta)
      else r;
    if r1.estado == Listo then r1.(tiempoEspera := r1.tiempoEspera + 1) else r1
  }

  function AdmitirTodos(ps: seq<Registro>, t: int): (ps': seq<Registro>)
    ensures |ps'| == |ps|
  {
    seq(|ps|, j requires 0 <= j < |ps| => Admitir(ps[j], t))
  }

  /**
   * The indices, among the first `k`, of the processes that arrive at `t`:
   * what the pass appends to the ready queue, in insertion order.
   */
  function Llegados(ps: seq<Registro>, t: int, k: nat): (c: seq<nat>)
    requires k <= |ps|
    ensures |c| <= k
    ensures forall x :: x in c ==> x < k && Llega(ps[x], t)
    decreases k
  {
    if k == 0 then []
    else Llegados(ps, t, k - 1) + (if Llega(ps[k - 1], t) then [k - 1] else [])
  }

  /** The pass queues exactly the arriving processes among the first `k`, in index order. */
  lemma {:induction false} LlegadosOrden(ps: seq<Registro>, t: int, k: nat)
    requires k <= |ps|
    ensures forall x: nat :: x in Llegados(ps, t, k) <==> x < k && Llega(ps[x], t)
    ensures forall a, b :: 0 <= a < b < |Llegados(ps, t, k)| ==> Llegados(ps, t, k)[a] < Llegados(ps, t, k)[b]
    decreases k
  {
    if k > 0 {
      LlegadosOrden(ps, t, k - 1);
      var previos := Llegados(ps, t, k - 1);
      assert forall a :: 0 <= a < |previos| ==> previos[a] in previos;
    }
  }

  /** When nothing arrives, the pass queues nothing. */
  lemma {:induction false} LlegadosVacio(ps: seq<Registro>, t: int, k: nat)
    requires k <= |ps|
    requires forall j :: 0 <= j < k ==> !Llega(ps[j], t)
    ensures Llegados(ps, t, k) == []
    decreases k
  {
    if k > 0 {
      LlegadosVacio(ps, t, k - 1);
    }
  }

  /** One more process through the admission pass: what it queues and what it records. */
  lemma AdmisionUnoMas(c: seq<nat>, h: Historial, v0: seq<Registro>, t: int, i: nat)
    requires i < |v0|
    ensures c + Llegados(v0, t, i + 1) == (c + Llegados(v0, t, i)) + (if Llega(v0[i], t) then [i] else [])
    ensures var ps1 := AdmitirTodos(v0, t);
      RegistrarTodos(h, t, ps1[..i + 1]) == Registrar(RegistrarTodos(h, t, ps1[..i]), t, ps1[i].id, ps1[i].estado)
  {
    var ps1 := AdmitirTodos(v0, t);
    assert ps1[..i + 1][..i] == ps1[..i];
  }

  function Admision(s: Estado): (s': Estado)
    ensures Formado(s) ==> Formado(s')
    ensures |s'.procs| == |s.procs| && s'.tiempo == s.tiempo
  {
    LlegadosOrden(s.procs, s.tiempo, |s.procs|);
    var ps1 := AdmitirTodos(s.procs, s.tiempo);
    s.(procs := ps1,
       cola := s.cola + Llegados(s.procs, s.tiempo, |s.procs|),
       historial := RegistrarTodos(s.historial, s.tiempo, ps1))
  }

  // ---------------------------------------------------------------------
  // Stage 2: dispatch
  // ---------------------------------------------------------------------

  /**
   * With the slot empty, the front of the queue becomes EJECUTANDO; its start
   * time is set, only if unset, to the clock before the advance.
   */
  function Despacho(s: Estado): (s': Estado)
    requires Formado(s)
    ensures Formado(s')
    ensures |s'.procs| == |s.procs| && s'.tiempo == s.tiempo
    ensures s.actual.Some? ==> s' == s
  {
    if s.actual.None? && s.cola != [] then
      var i := s.cola[0];
      assert i in s.cola;
      assert forall k :: k in s.cola[1..] ==> k in s.cola;
      var r := s.procs[i];
      s.(procs := s.procs[i := r.(estado := Ejecutando,
                                  tiempoComienzo := if r.tiempoComienzo.None? then Some(s.tiempo) else r.tiempoComienzo)],
         cola := s.cola[1..],
         actual := Some(i))
    else s
  }

  // ---------------------------------------------------------------------
  // Stage 3: execution, finish or preemption, clock advance
  // ---------------------------------------------------------------------

  /**
   * The running process consumes one unit: its remaining time drops by one,
   * the busy counter grows, and its state is recorded under the current tick.
   */
  function Consumo(s: Estado): (s': Estado)
    requires Formado(s) && s.actual.Some?
    ensures Formado(s')
    ensures |s'.procs| == |s.procs| && s'.tiempo == s.tiempo && s'.actual == s.actual
  {
    var i := s.actual.value;
    var r := s.procs[i].(tiempoRestante := s.procs[i].tiempoRestante - 1);
    s.(procs := s.procs[i := r],
       ocupada := s.ocupada + 1,
       historial := Registrar(s.historial, s.tiempo, r.id, r.estado))
  }

  /**
   * The process in the slot finishes when nothing is left, is sent to the back
   * of the queue when the next tick is a multiple of the quantum, and keeps the
   * slot otherwise; then the clock advances.
   */
  function Decision(s: Estado, q: int): (s': Estado)
    requires q > 0 && Formado(s) && s.actual.Some?
    ensures Formado(s')
    ensures |s'.procs| == |s.procs| && s'.tiempo == s.tiempo + 1
  {
    var i := s.actual.value;
    var t := s.tiempo;
    var r := s.procs[i];
    if r.tiempoRestante == 0 then
      s.(procs := s.procs[i := r.(estado := Finalizado, tiempoFinalizacion := Some(t + 1))],
         actual := None, finalizados := s.finalizados + [i], tiempo := t + 1)
    else if (t + 1) % q == 0 then
      s.(procs := s.procs[i := r.(estado := Listo)],
         actual := None, cola := s.cola + [i], tiempo := t + 1)
    else
      s.(tiempo := t + 1)
  }

  /** The third stage: with the slot empty only the clock advances. */
  function Ejecucion(s: Estado, q: int): (s': Estado)
    requires q > 0 && Formado(s)
    ensures Formado(s')
    ensures |s'.procs| == |s.procs| && s'.tiempo == s.tiempo + 1
  {
    if s.actual.None? then s.(tiempo := s.tiempo + 1)
    else Decision(Consumo(s), q)
  }

  /** `tick`: one whole Round-Robin step. */
  function Paso(s: Estado, q: int): (s': Estado)
    requires q > 0 && Formado(s)
    ensures Formado(s')
    ensures |s'.procs| == |s.procs| && s'.tiempo == s.tiempo + 1
  {
    Ejecucion(Despacho(Admision(s)), q)
  }

  /** What `tick` returns: some process has not finished. */
  predicate Continua(s: Estado)
    ensures Continua(s) ==> s.procs != []
  {
    |s.finalizados| < |s.procs|
  }

  // ---------------------------------------------------------------------
  // The invariant
  // ---------------------------------------------------------------------

  /** The timing facts a record keeps in each state, for clock `t`. */
  predicate Coherente(r: Registro, t: int) {
    match r.estado
    case Nuevo => 0 < r.tiempoRestante == r.tiempoEjecucion
    case Listo =>
      && 0 < r.tiempoRestante <= r.tiempoEjecucion
      && r.tiempoLlegada <= t && r.tiempoRespuesta.Some?
      && r.tiempoEjecucion - r.tiempoRestante <= t - r.tiempoLlegada
    case Ejecutando =>
      && 0 < r.tiempoRestante <= r.tiempoEjecucion
      && r.tiempoLlegada <= t && r.tiempoRespuesta.Some? && r.tiempoComienzo.Some?
      && r.tiempoEjecucion - r.tiempoRestante <= t - r.tiempoLlegada
    case Finalizado =>
      && r.tiempoRestante == 0
      && r.tiempoRespuesta.Some? && r.tiempoComienzo.Some? && r.tiempoFinalizacion.Some?
      && 0 < r.tiempoFinalizacion.value <= t
      && r.tiempoEjecucion <= r.tiempoFinalizacion.value - r.tiempoLlegada
  }

  /**
   * Process `j` sits where its state says: LISTO exactly when queued,
   * EJECUTANDO exactly when in the slot, FINALIZADO exactly when in the
   * finished list (so NUEVO exactly when in none of them).
   */
  predicate Ubicado(s: Estado, j: nat)
    requires j < |s.procs|
  {
    var r := s.procs[j];
    && (r.estado == Listo <==> j in s.cola)
    && (r.estado == Ejecutando <==> s.actual == Some(j))
    && (r.estado == Finalizado <==> j in s.finalizados)
    && Coherente(r, s.tiempo)
  }

  /** The invariant at every point between stages. */
  predicate InvBase(s: Estado) {
    && Formado(s)
    && SinRepetidos(s.cola)
    && SinRepetidos(s.finalizados)
    && 0 <= s.ocupada <= s.tiempo
    && forall j: nat :: j < |s.procs| ==> Ubicado(s, j)
  }

  /**
   * The invariant at tick boundaries: a process that kept the slot across a
   * boundary did so because that boundary was not a multiple of the quantum.
   */
  predicate Inv(s: Estado, q: int) {
    && q > 0
    && InvBase(s)
    && (s.actual.Some? ==> s.tiempo % q != 0)
  }

  /** The state `PlanificadorRoundRobin(quantum)` starts in. */
  function Vacio(): (s: Estado)
    ensures InvBase(s) && !Continua(s) && s.tiempo == 0
  {
    Estado([], [], None, 0, 0, [], map[])
  }
}
