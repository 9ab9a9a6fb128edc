# Round-Robin simulator core in Dafny

This project models the engine of the Round-Robin CPU-scheduling simulator
(src/core/process.py and src/core/scheduler.py) and proves properties of it.

The engine holds a list of processes, a FIFO ready queue, a running slot, a
clock, a busy-tick counter, a list of finished processes and a per-tick state
history. Each `tick` runs these steps in order:

1. An admission and wait-accounting pass over all processes, in insertion order.
2. Dispatch from the front of the queue, if the slot is empty.
3. One unit of execution.
4. A finish-or-preempt decision keyed on `(tiempo_actual + 1) % quantum`.
5. A clock advance.

The model has two layers:

- **Imperative layer.**
  - `Procesos.Proceso` is a class whose fields the scheduler updates in place.
  - `Planificador.PlanificadorRoundRobin` is a class holding the process objects and the scheduler fields.
  - Its `Tick` method performs the tick step by step: the admission loop, then `Despachar`, `Consumir` and `Decidir`.
  - Each step of `Tick` is proved against a pure function of module `RoundRobin`. `AgregarProceso` is proved against an append to the process list, and `ObtenerMetricas` against `Metricas.Calcular`.
- **Value layer.**
  - `Procesos.Registro` is the value of a process's fields.
  - `RoundRobin.Estado` is the value of the whole scheduler state.
  - `RoundRobin.Paso` is one tick, composed of the stages `Admision`, `Despacho`, `Consumo` and `Decision`.
  - The properties of the engine are proved on `Paso` in modules `Invariante`, `Propiedades`, `Corrida`, `Metricas` and `Escenarios`.

Modules:

| file | module | contents |
|---|---|---|
| opciones.dfy | Opciones | `Option`, the model of `Optional[int]` |
| texto.dfy | Texto | decimal rendering of integers, and its injectivity |
| procesos.dfy | Procesos | process record, `Proceso` class, id counter, factory |
| roundrobin.dfy | RoundRobin | value-level state, the stages of a tick, the invariant |
| invariante.dfy | Invariante | each stage keeps the invariant |
| propiedades.dfy | Propiedades | per-tick properties: clock, admission, dispatch, finish, preemption, history |
| corrida.dfy | Corrida | runs of many ticks: termination and the quantum bound |
| metricas.dfy | Metricas | `obtener_metricas` and bounds on it |
| planificador.dfy | Planificador | the scheduler class and its in-place methods |
| escenarios.dfy | Escenarios | two concrete runs stepped tick by tick |

Modelling decisions:

- **Indices, not objects.**
  - The queue, the slot and the finished list hold indices into the process sequence.
  - `Planificador.Distintos` requires the process objects to be pairwise distinct.
- **History keyed by id.**
  - The history is keyed by the integer id rather than the string `"P{id}"`.
  - `Procesos.ClaveInyectiva` proves the string key is injective, so both keyings file the same entries.
- **Modulo.** Python's `%` floors, Dafny's is Euclidean. For the positive quantums the model admits, the two agree.
- **The invariant `RoundRobin.Inv`.** It holds at every tick boundary and says:
  - each process is in exactly one place, as its state says: NUEVO nowhere, LISTO in the queue, EJECUTANDO in the slot, FINALIZADO in the finished list;
  - the queue and the finished list have no repeats;
  - `0 <= tiempo_cpu_ocupada <= tiempo_actual`;
  - each record's timing fields agree with its state;
  - a process held across a boundary was not at a multiple of the quantum.
- **The turnaround identity does not hold.**
  - The doc comment at src/core/process.py:47 says turnaround = wait + burst.
  - The code computes `finalizacion - llegada` instead.
  - The wait counter also charges the tick in which a LISTO process is dispatched.
  - In `Escenarios.EscenarioUno` the process waits 2 ticks with burst 3, but its turnaround is 3.

## Model

| member | source | states |
|---|---|---|
| Texto.Entero | src/core/process.py:58 | the decimal rendering of an integer is non-empty, made of digits and a minus sign, and starts with `-` exactly when the integer is negative |
| Texto.DigitosInyectivo | src/core/process.py:58 | two naturals with the same digit string are equal |
| Texto.EnteroInyectivo | src/core/scheduler.py:63 | two integers with the same rendering are equal |
| Procesos.Inicial | src/core/process.py:28-41 | a new process record is NUEVO with its whole burst remaining and no wait, and has no response, start or completion time |
| Procesos.Clave | src/core/scheduler.py:63 | the history key has at least two characters: `P`, then digits and a minus sign, the minus sign right after `P` exactly for a negative id |
| Procesos.Rotulo | src/core/process.py:56-58 | the `__str__` rendering starts with the history key `P{id}` and ends with `)` |
| Procesos.Registro.TiempoRetorno | src/core/process.py:43-54 | the turnaround is unset exactly when the completion time is unset; otherwise completion = arrival + turnaround |
| Procesos.ClaveInyectiva | src/core/scheduler.py:63 | different ids give different history keys `"P{id}"` |
| Procesos.RotuloDeterminaCampos | src/core/process.py:56-58 | two processes with the same `__str__` rendering have the same id, arrival and burst |
| Procesos.Proceso.constructor | src/core/process.py:28-41 | every field has the value passed or its default, except the remaining time, which equals the burst whatever was passed |
| Procesos.Proceso.PostInit | src/core/process.py:39-41 | only the remaining time changes, and it becomes the burst |
| Procesos.Proceso.TiempoRetorno | src/core/process.py:43-54 | unset exactly when the completion time is unset; otherwise completion − arrival |
| Procesos.Proceso.ToString | src/core/process.py:56-58 | the rendering has more than one character and starts with `P` |
| Procesos.ContadorGlobal.constructor | src/core/process.py:63 | the class-wide id counter starts at 1 |
| Procesos.FabricaProcesos.constructor | src/core/process.py:65-70 | the random ranges are arrival [0, 10] and burst [2, 10], and the factory shares the given counter |
| Procesos.FabricaProcesos.CrearProcesoAleatorio | src/core/process.py:72-89 | the counter grows by exactly 1 in every case. The result is `None`, modelling the ValueError of `random.randint`, exactly when the arrival or the burst range is empty. Otherwise it is a fresh NUEVO process whose id is the counter's old value and whose arrival and burst lie in the factory's ranges |
| Procesos.FabricaProcesos.CrearProceso | src/core/process.py:91-106 | a fresh process with exactly the given id, arrival, burst and priority, in its initial state |
| Procesos.FabricaProcesos.CrearProcesosAleatorios | src/core/process.py:108-129 | the result is `None`, modelling the ValueError of the first `random.randint`, exactly when `n > 0` and `max_llegada < 0` or `max_ejecucion < 1`. Otherwise it is `n` distinct fresh processes (none for a negative `n`) with ids 1..n in order, arrival in [0, max_llegada] and burst in [1, max_ejecucion]; the shared counter is untouched |
| Procesos.IdsCompartidos | src/core/process.py:79-80 | two factories built with the same counter and drawing in turn hand out ids that increase by exactly 1, and their default ranges never raise |
| RoundRobin.Codigo | src/core/scheduler.py:55-61 | the state code is empty exactly for NUEVO |
| RoundRobin.Registrar | src/core/scheduler.py:45-63 | filing one state code under the current tick; it has no contract of its own, and `RoundRobin.RegistrarEfecto` states its effect |
| RoundRobin.RegistrarTodos | src/core/scheduler.py:144 | recording every process of the pass under the current tick leaves every other tick present and unchanged |
| RoundRobin.RegistrarEfecto | src/core/scheduler.py:52-63 | recording adds the current tick if missing, files the id under it with its code, and leaves every other tick and every other id alone |
| RoundRobin.Admitir | src/core/scheduler.py:133-142 | a process becomes LISTO exactly when it is NUEVO and has arrived. Its response time is set, to clock − arrival, only then and only if unset. Its wait grows by 1 exactly when it is LISTO afterwards. No other field changes |
| RoundRobin.AdmitirTodos | src/core/scheduler.py:132-144 | the admission pass keeps the number of processes |
| RoundRobin.Llegados | src/core/scheduler.py:132-136 | among the first `k` processes, at most `k` indices are queued, each naming a NUEVO process that has arrived |
| RoundRobin.LlegadosOrden | src/core/scheduler.py:132-136 | the indices the admission pass enqueues are exactly the NUEVO processes that have arrived, in increasing (insertion) order |
| RoundRobin.LlegadosVacio | src/core/scheduler.py:132-136 | with no arrived NUEVO process, the pass enqueues nothing |
| RoundRobin.AdmisionUnoMas | src/core/scheduler.py:132-144 | one more iteration of the admission loop appends that process's index to the queue if it arrived, and records its state |
| RoundRobin.Admision | src/core/scheduler.py:132-144 | the admission pass keeps every index pointing at a process, and keeps the number of processes and the clock |
| RoundRobin.Despacho | src/core/scheduler.py:153-156 | dispatch keeps every index pointing at a process, the number of processes and the clock; with the slot held it changes nothing |
| RoundRobin.Consumo | src/core/scheduler.py:159-161 | one unit of execution keeps every index pointing at a process, the number of processes, the clock and the slot |
| RoundRobin.Decision | src/core/scheduler.py:163-174 | the finish-or-preempt decision keeps every index pointing at a process and the number of processes, and advances the clock by 1 |
| RoundRobin.Ejecucion | src/core/scheduler.py:147-174 | the execution stage, idle or not, keeps every index pointing at a process and the number of processes, and advances the clock by 1 |
| RoundRobin.Paso | src/core/scheduler.py:125-176 | one tick keeps every index pointing at a process and the number of processes, and advances the clock by exactly 1 |
| RoundRobin.Continua | src/core/scheduler.py:176 | `tick` returns true only when there is some process |
| RoundRobin.Vacio | src/core/scheduler.py:120-123 | the empty scheduler satisfies the invariant apart from the quantum condition, its clock is 0, and its `tick` result would be false |
| Invariante.AdmisionPreserva | src/core/scheduler.py:132-144 | the admission pass keeps the invariant and never changes a process's identity, arrival, burst or priority |
| Invariante.DespachoPreserva | src/core/scheduler.py:147-156 | dispatch keeps the invariant and no identity changes |
| Invariante.EjecucionPreserva | src/core/scheduler.py:158-174 | execution, the finish-or-preempt decision and the clock advance restore the full invariant, including the quantum condition |
| Invariante.PasoPreservaInv | src/core/scheduler.py:125-176 | every tick keeps the invariant |
| Invariante.VacioInv | src/core/scheduler.py:120-123 | a newly built scheduler satisfies the invariant |
| Invariante.HistorialLibre | src/core/scheduler.py:45-63 | replacing the history keeps the invariant, so recording a state never breaks it |
| Invariante.AgregarPreserva | src/core/scheduler.py:37-39 | appending a NUEVO process with its whole burst left keeps the invariant |
| Metricas.Calcular | src/core/scheduler.py:88-112 | the report is missing exactly when no process has finished. Otherwise: `tiempo_total` is the clock; the totals are the list lengths; the averages times the count equal the wait and turnaround sums; utilisation times the clock equals busy × 100, or is 0 at clock 0 |
| Metricas.SumaEspera | src/core/scheduler.py:98 | the wait total of the finished processes; it has no contract of its own, and `Metricas.Calcular` ties the mean wait to it |
| Metricas.SumaRetorno | src/core/scheduler.py:99 | the turnaround total of the finished processes; it has no contract of its own, and `Metricas.EjecucionBajoRetorno` bounds it below |
| Metricas.InvMedible | src/core/scheduler.py:98-99 | under the invariant every finished process has its completion time, so the turnaround sum is defined |
| Metricas.RetornoCubreEjecucion | src/core/scheduler.py:98-99 | when each finished process's turnaround covers its burst, the turnaround sum is at least the burst sum |
| Metricas.EjecucionBajoRetorno | src/core/scheduler.py:98-99 | under the invariant the turnaround total of the finished processes is at least their burst total |
| Metricas.MetricasAcotadas | src/core/scheduler.py:95-112 | once a process has finished: the report exists, the clock is positive, utilisation lies in [0, 100], and mean turnaround × count ≥ the burst sum |
| Planificador.PlanificadorRoundRobin.constructor | src/core/scheduler.py:120-123 | empty process list, slot, queue, finished list and history; clock and busy counter 0; given quantum; the invariant holds |
| Planificador.PlanificadorRoundRobin.AgregarProceso | src/core/scheduler.py:37-39 | the process is appended and nothing else changes; the invariant is kept |
| Planificador.PlanificadorRoundRobin.RegistrarEstadoProceso | src/core/scheduler.py:45-63 | the history becomes `Registrar(old, clock, id, state)`, nothing else in the state changes, and a valid scheduler stays valid, so it can still be ticked |
| Planificador.PlanificadorRoundRobin.ObtenerMetricas | src/core/scheduler.py:88-112 | the result is missing exactly when no process has finished |
| Planificador.PlanificadorRoundRobin.AdmitirProceso | src/core/scheduler.py:133-144 | one loop iteration: this process is admitted and charged a wait tick as `Admitir` says; every other process is unchanged; the queue grows by its index iff it arrived; its state is recorded |
| Planificador.PlanificadorRoundRobin.AdmitirLlegados | src/core/scheduler.py:132-144 | after the loop the processes are `AdmitirTodos` of the old values, the queue is the old queue followed by the arrived indices in order, and each process's new state is recorded |
| Planificador.PlanificadorRoundRobin.Despachar | src/core/scheduler.py:153-156 | the front of the queue takes the slot, becomes EJECUTANDO and gets its start time if unset, exactly as `Despacho` |
| Planificador.PlanificadorRoundRobin.Consumir | src/core/scheduler.py:159-161 | the running process loses one unit, the busy counter grows by one and the state is recorded, exactly as `Consumo` |
| Planificador.PlanificadorRoundRobin.Decidir | src/core/scheduler.py:163-174 | finish, preemption at a quantum boundary or keeping the slot, then the clock advance, exactly as `Decision` |
| Planificador.PlanificadorRoundRobin.ManejarActual | src/core/scheduler.py:147-174 | the part of the tick after admission: only the clock moves with slot and queue empty, otherwise dispatch then execution, exactly as `Ejecucion(Despacho(..))` |
| Planificador.PlanificadorRoundRobin.Tick | src/core/scheduler.py:125-176 | the new state is `Paso` of the old one and the invariant is kept; the result is whether some process has not finished |
| Propiedades.AdmisionEfecto | src/core/scheduler.py:132-144 | the admission pass changes each process as `Admitir` says and leaves slot, clock, busy counter and finished list alone |
| Propiedades.DespachoEfecto | src/core/scheduler.py:147-156 | with a process in the slot or an empty queue, dispatch changes nothing. Otherwise the front index leaves the queue, takes the slot and becomes EJECUTANDO, with its start time set only if unset; every other process is unchanged |
| Propiedades.EjecucionEfecto | src/core/scheduler.py:158-174 | the clock grows by 1 and the busy counter by 1 exactly when a process runs. The running process loses a unit and its state is recorded. It then finishes at remaining 0, goes to the back of the queue at a multiple of the quantum, or keeps the slot. Other processes are unchanged |
| Propiedades.EnEjecucionFueraDeCola | src/core/scheduler.py:153-156 | the running process is EJECUTANDO and is neither queued nor finished |
| Propiedades.ColaYFinalizadosDisjuntos | src/core/scheduler.py:164-172 | no process is both queued and finished |
| Propiedades.ColaDeListos | src/core/scheduler.py:133-136 | every queued index names a LISTO process |
| Propiedades.FrenteListo | src/core/scheduler.py:153-154 | the front of a non-empty queue is a LISTO process |
| Propiedades.SinListosColaVacia | src/core/scheduler.py:147-151 | with no LISTO process the queue is empty |
| Propiedades.PasoReloj | src/core/scheduler.py:147-174 | every tick, idle or not, advances the clock by exactly 1; the busy counter grows by 1 exactly when a process executes |
| Propiedades.PasoOcioso | src/core/scheduler.py:147-151 | nothing executes exactly when no process is LISTO or EJECUTANDO after admission; then slot and queue are empty |
| Propiedades.PasoEligeFrente | src/core/scheduler.py:147-156 | a process already in the slot keeps executing; an empty slot is filled from the front of the queue (work-conserving) |
| Propiedades.AdmisionRegistro | src/core/scheduler.py:133-142 | an arrived NUEVO process becomes LISTO; its response time is set only if unset, to clock − arrival; the wait grows by 1 exactly when it is LISTO after the check; no other field changes |
| Propiedades.AdmisionCola | src/core/scheduler.py:132-136 | admission appends to the back of the queue exactly the arrived NUEVO processes, in insertion order |
| Propiedades.PasoRestante | src/core/scheduler.py:159 | only the executing process loses one unit of remaining time, and remaining time never goes below 0 |
| Propiedades.PasoDecision | src/core/scheduler.py:163-172 | the executing process finishes at completion clock + 1 when its last unit runs; otherwise it is preempted to the back of the queue exactly when (clock + 1) is a multiple of the quantum, and else keeps the slot |
| Propiedades.PasoComienzo | src/core/scheduler.py:155-156 | the start time of the executing process is set at dispatch only if unset, to the pre-increment clock |
| Propiedades.FinalizadoTerminal | src/core/scheduler.py:164-168 | a finished process never changes again and stays in the finished list (each process finishes once) |
| Propiedades.FinalizadosCrecen | src/core/scheduler.py:167 | the finished list either stays the same or grows by the executing process, which was not in it |
| Propiedades.RegistrarTodosFila | src/core/scheduler.py:144 | with distinct ids, after the pass each process's entry under the tick is its state code |
| Propiedades.RegistrarTodosOtros | src/core/scheduler.py:52-63 | the pass touches no tick but the current one |
| Propiedades.HistorialPaso | src/core/scheduler.py:144-161 | after a tick every process has an entry under the old clock: `E` for the executing one (overwritten after execution), else the code of its state after admission; earlier ticks are unchanged |
| Propiedades.ContinuaSiPendiente | src/core/scheduler.py:176 | the finished count never exceeds the process count, and `tick` returns true exactly when some process is not FINALIZADO |
| Corrida.Iter | src/core/scheduler.py:169-174 | after `n` ticks the clock has moved by `n`, and a process is in the slot only if the last tick did not end on a multiple of the quantum |
| Corrida.PendienteNoCrece | src/core/scheduler.py:132-174 | no process's pending work (remaining time plus ticks until arrival) grows in a tick; it shrinks for the executing process and for a process not yet arrived |
| Corrida.AlgunoDecrece | src/core/scheduler.py:147-161 | while some process is unfinished, either a process executes or one has not yet arrived |
| Corrida.PasoDecreceMedida | src/core/scheduler.py:125-176 | while some process is unfinished, every tick lowers the total pending work |
| Corrida.Termina | src/core/scheduler.py:176 | from any state satisfying the invariant, `tick` returns false within as many ticks as the initial pending work |
| Corrida.PasoTerminado | src/core/scheduler.py:147-151 | once all processes are finished, a tick only moves the clock and records each process as finished, and `tick` keeps returning false |
| Corrida.CuantoAcotado | src/core/scheduler.py:169-172 | if one process is in the slot after each of `k` consecutive ticks, then `k < quantum` |
| Escenarios.EscenarioUno | src/core/scheduler.py:125-176 | quantum 2, P1(0, 3): preempted after tick 2, re-dispatched at once, finished at 3 with wait 2 and response 0; `tick` then returns false |
| Escenarios.EscenarioDos | src/core/scheduler.py:125-176 | quantum 2, P1(0, 3) and P2(0, 2): finished order P2, P1 with completions 4 and 5; busy = clock = 5; waits 4 and 3; `tick` returns true after tick 4 and false after tick 5 |
| Escenarios.DosMetricas | src/core/scheduler.py:95-112 | the report at the end of that run: clock 5, utilisation 100, mean wait 3.5, mean turnaround 4.5, 2 processes, 2 finished |

## Left out

- The observer mechanism (src/core/scheduler.py:9-23, 41-43, 65-77): `agregar_observador` and the notification after every tick are calls into UI objects.
- The GUI, the Excel export, `main.py` and the settings module: they are not part of the engine.
- Python object identity.
  - The model refers to processes by their index in the process sequence.
  - `AgregarProceso` requires the new object not to be in the list already; the source does not check this.
- Planificador.PlanificadorRoundRobin.AgregarProceso: requires the process to be NUEVO with its whole burst left (`Admisible`). The source appends any object, but the invariant, and so `Tick`, is only proved for such processes.
- Validation.
  - The source validates neither the quantum nor the burst.
  - `quantum > 0` is a precondition of the constructor and of every tick.
  - With quantum 0, Python raises ZeroDivisionError only in a tick where a process executes and does not finish (src/core/scheduler.py:164-169). That error path is not modelled.
  - A negative quantum, which Python accepts, is excluded. Python's `(t + 1) % q == 0` then holds exactly when `-q` divides `t + 1`, so quantum `-q` behaves like quantum `q`.
  - A positive burst is part of the invariant for NUEVO processes.
  - With a burst of 0 or less the source's simulation never ends. The remaining time goes to −1, −2, …, so the `== 0` test (src/core/scheduler.py:164) never holds, the process never finishes and `tick` keeps returning true. `Corrida.Termina` relies on the positive burst the invariant demands.
- The distribution of `random.randint`: each draw is a nondeterministic choice within its range.
- `_next_id` as a single class attribute. `Procesos.ContadorGlobal` is an ordinary object. Factories share it only when they are built with the same counter; a second counter would start at 1 again and repeat ids. `Procesos.IdsCompartidos` proves ids grow by 1 when two factories share one counter.
- Floating point.
  - Averages and utilisation are exact reals; Python's float rounding is not modelled.
  - Utilisation is stated through `utilizacion × tiempo = ocupada × 100`.
- Procesos.Proceso.ToString: its own contract states only the leading `P`. The full rendering is `Procesos.Rotulo`, and `Procesos.RotuloDeterminaCampos` proves it unambiguous.
- The history uses integer ids as keys instead of the strings `"P{id}"`. `Procesos.ClaveInyectiva` shows the two keyings are interchangeable.
- `crear_procesos_aleatorios` with a negative count: Python's `range` gives no iteration, and the model does the same.
- Corrida.CuantoAcotado: bounds one stay in the slot. A process is in the slot after fewer than `quantum` consecutive ticks, so it runs at most `quantum` ticks before it finishes or is preempted. A process preempted into an otherwise empty queue is dispatched again in the next tick, so it can run more than `quantum` ticks in a row; `Escenarios.EscenarioUno` is such a run.
