/**
 * What one `tick` does, stated about the value-level step `Paso` of module
 * RoundRobin for a state that satisfies the scheduler invariant.
 */
module Propiedades {
  import opened Opciones
  import opened Procesos
  import opened RoundRobin
  import opened Invariante

  /** The process that executes during the tick from `s`, if any. */
  function EnEjecucion(s: Estado): Option<nat>
    requires Formado(s)
  {
    Despacho(Admision(s)).actual
  }

  // ---------------------------------------------------------------------
  // The effect of each stage, field by field
  // ---------------------------------------------------------------------

  lemma AdmisionEfecto(s: Estado)
    ensures var s1 := Admision(s);
      && |s1.procs| == |s.procs|
      && (forall j :: 0 <= j < |s.procs| ==> s1.procs[j] == Admitir(s.procs[j], s.tiempo))
      && s1.actual == s.actual && s1.tiempo == s.tiempo && s1.ocupada == s.ocupada
      && s1.finalizados == s.finalizados
  {
  }

  lemma DespachoEfecto(s: Estado)
    requires Formado(s)
    ensures var s2 := Despacho(s);
      && |s2.procs| == |s.procs|
      && s2.tiempo == s.tiempo && s2.ocupada == s.ocupada
      && s2.finalizados == s.finalizados && s2.historial == s.historial
      && (s.actual.Some? || s.cola == [] ==> s2 == s)
      && (s.actual.None? && s.cola != [] ==>
            && s.cola[0] < |s.procs|
            && s2.actual == Some(s.cola[0]) && s2.cola == s.cola[1..]
            && s2.procs[s.cola[0]] == s.procs[s.cola[0]].(estado := Ejecutando,
                 tiempoComienzo := if s.procs[s.cola[0]].tiempoComienzo.None? then Some(s.tiempo)
                                   else s.procs[s.cola[0]].tiempoComienzo)
            && (forall j :: 0 <= j < |s.procs| && j != s.cola[0] ==> s2.procs[j] == s.procs[j]))
  {
    if s.actual.None? && s.cola != [] {
      assert s.cola[0] in s.cola;
    }
  }

  lemma EjecucionEfecto(s: Estado, q: int)
    requires q > 0 && Formado(s)
    ensures var s3 := Ejecucion(s, q);
      && |s3.procs| == |s.procs|
      && s3.tiempo == s.tiempo + 1
      && s3.ocupada == s.ocupada + (if s.actual.Some? then 1 else 0)
      && (s.actual.None? ==> s3 == s.(tiempo := s.tiempo + 1))
      && (s.actual.Some? ==>
            var i := s.actual.value;
            var r := s.procs[i].(tiempoRestante := s.procs[i].tiempoRestante - 1);
            && s3.historial == Registrar(s.historial, s.tiempo, r.id, r.estado)
            && (forall j :: 0 <= j < |s.procs| && j != i ==> s3.procs[j] == s.procs[j])
            && if r.tiempoRestante == 0 then
                 && s3.procs[i] == r.(estado := Finalizado, tiempoFinalizacion := Some(s.tiempo + 1))
                 && s3.actual.None? && s3.cola == s.cola && s3.finalizados == s.finalizados + [i]
               else if (s.tiempo + 1) % q == 0 then
                 && s3.procs[i] == r.(estado := Listo)
                 && s3.actual.None? && s3.cola == s.cola + [i] && s3.finalizados == s.finalizados
               else
                 && s3.procs[i] == r
                 && s3.actual == Some(i) && s3.cola == s.cola && s3.finalizados == s.finalizados)
  {
  }

  // ---------------------------------------------------------------------
  // Where each process is
  // ---------------------------------------------------------------------

  /** The running process is never in the ready queue nor among the finished. */
  lemma EnEjecucionFueraDeCola(s: Estado)
    requires InvBase(s) && s.actual.Some?
    ensures s.actual.value !in s.cola && s.actual.value !in s.finalizados
    ensures s.procs[s.actual.value].estado == Ejecutando
  {
    assert Ubicado(s, s.actual.value);
  }

  /** No index is both queued and finished. */
  lemma ColaYFinalizadosDisjuntos(s: Estado)
    requires InvBase(s)
    ensures forall x :: x in s.cola ==> x !in s.finalizados
  {
    forall x | x in s.cola ensures x !in s.finalizados {
      assert Ubicado(s, x);
    }
  }

  /** Every queued process is LISTO. */
  lemma ColaDeListos(s: Estado)
    requires InvBase(s)
    ensures forall x :: x in s.cola ==> x < |s.procs| && s.procs[x].estado == Listo
  {
    forall x | x in s.cola ensures x < |s.procs| && s.procs[x].estado == Listo {
      assert Ubicado(s, x);
    }
  }

  /** The front of a non-empty queue is a LISTO process. */
  lemma FrenteListo(s: Estado)
    requires InvBase(s) && s.cola != []
    ensures s.cola[0] < |s.procs| && s.procs[s.cola[0]].estado == Listo
  {
    var x := s.cola[0];
    assert x in s.cola;
    assert Ubicado(s, x);
  }

  /** With no process LISTO the queue is empty. */
  lemma SinListosColaVacia(s: Estado)
    requires InvBase(s)
    requires forall j :: 0 <= j < |s.procs| ==> s.procs[j].estado != Listo
    ensures s.cola == []
  {
    if s.cola != [] {
      FrenteListo(s);
      assert false;
    }
  }

  // ---------------------------------------------------------------------
  // Clock and busy counter
  // ---------------------------------------------------------------------

  /**
   * Every tick advances the clock by exactly one; the busy counter grows by
   * one exactly when some process executes.
   */
  lemma PasoReloj(s: Estado, q: int)
    requires q > 0 && Formado(s)
    ensures Paso(s, q).tiempo == s.tiempo + 1
    ensures Paso(s, q).ocupada == s.ocupada + (if EnEjecucion(s).Some? then 1 else 0)
  {
    var s1 := Admision(s);
    AdmisionEfecto(s);
    DespachoEfecto(s1);
    EjecucionEfecto(Despacho(s1), q);
  }

  /**
   * Dispatch is work-conserving: a tick executes nothing exactly when, after
   * the admission pass, no process is LISTO or EJECUTANDO; and then the slot
   * and the queue are both empty.
   */
  lemma PasoOcioso(s: Estado, q: int)
    requires Inv(s, q)
    ensures EnEjecucion(s).None? <==>
      forall j :: 0 <= j < |s.procs| ==> Admision(s).procs[j].estado !in {Listo, Ejecutando}
    ensures EnEjecucion(s).None? ==> s.actual.None? && Admision(s).cola == []
  {
    var s1 := Admision(s);
    AdmisionPreserva(s);
    AdmisionEfecto(s);
    DespachoEfecto(s1);
    if EnEjecucion(s).None? {
      forall j | 0 <= j < |s.procs| ensures s1.procs[j].estado !in {Listo, Ejecutando} {
        assert Ubicado(s1, j);
      }
    } else if s1.actual.Some? {
      assert Ubicado(s1, s1.actual.value);
    } else {
      assert s1.cola[0] in s1.cola;
      assert Ubicado(s1, s1.cola[0]);
    }
  }

  /**
   * The process that executes is the one already in the slot or, with the slot
   * empty, the front of the queue after the admission pass.
   */
  lemma PasoEligeFrente(s: Estado, q: int)
    requires Inv(s, q)
    ensures s.actual.Some? ==> EnEjecucion(s) == s.actual
    ensures s.actual.None? && Admision(s).cola != [] ==> EnEjecucion(s) == Some(Admision(s).cola[0])
  {
    AdmisionEfecto(s);
    DespachoEfecto(Admision(s));
  }

  // ---------------------------------------------------------------------
  // Admission and wait accounting
  // ---------------------------------------------------------------------

  /**
   * The admission pass: a NUEVO process whose arrival time has come becomes
   * LISTO and its response time is set, only if unset, to the clock minus its
   * arrival; then every process that is LISTO gains one tick of waiting. No
   * other field changes.
   */
  lemma AdmisionRegistro(s: Estado, j: int)
    requires 0 <= j < |s.procs|
    ensures var r, r' := s.procs[j], Admision(s).procs[j];
      && r'.estado == (if Llega(r, s.tiempo) then Listo else r.estado)
      && r'.tiempoRespuesta == (if Llega(r, s.tiempo) && r.tiempoRespuesta.None? then Some(s.tiempo - r.tiempoLlegada) else r.tiempoRespuesta)
      && r'.tiempoEspera == r.tiempoEspera + (if r'.estado == Listo then 1 else 0)
      && r' == r.(estado := r'.estado, tiempoRespuesta := r'.tiempoRespuesta, tiempoEspera := r'.tiempoEspera)
  {
    AdmisionEfecto(s);
  }

  /**
   * The admission pass appends to the back of the queue exactly the arriving
   * processes, in insertion order, and nothing else.
   */
  lemma AdmisionCola(s: Estado)
    ensures var adm := Admision(s).cola[|s.cola|..];
      && Admision(s).cola == s.cola + adm
      && (forall x: nat :: x in adm <==> x < |s.procs| && Llega(s.procs[x], s.tiempo))
      && (forall a, b :: 0 <= a < b < |adm| ==> adm[a] < adm[b])
  {
    var adm := Llegados(s.procs, s.tiempo, |s.procs|);
    assert Admision(s).cola[|s.cola|..] == adm;
    LlegadosOrden(s.procs, s.tiempo, |s.procs|);
  }

  // ---------------------------------------------------------------------
  // Execution: finish, preemption, keep
  // ---------------------------------------------------------------------

  /**
   * Only the executing process loses remaining time, exactly one unit, and
   * the remaining time of every process stays non-negative.
   */
  lemma PasoRestante(s: Estado, q: int, j: int)
    requires Inv(s, q) && 0 <= j < |s.procs|
    ensures Paso(s, q).procs[j].tiempoRestante
         == s.procs[j].tiempoRestante - (if EnEjecucion(s) == Some(j) then 1 else 0)
    ensures Paso(s, q).procs[j].tiempoRestante >= 0
  {
    var s1 := Admision(s);
    AdmisionEfecto(s);
    DespachoEfecto(s1);
    var s2 := Despacho(s1);
    EjecucionEfecto(s2, q);
    PasoPreservaInv(s, q);
    var p := Paso(s, q);
    assert Ubicado(p, j);
  }

  /**
   * The executing process `i` finishes when its last unit runs: it becomes
   * FINALIZADO with completion time the advanced clock, is appended to the
   * finished list and frees the slot. Otherwise, at a quantum boundary, it
   * goes LISTO to the back of the queue; else it keeps the slot.
   */
  lemma PasoDecision(s: Estado, q: int, i: nat)
    requires Inv(s, q) && EnEjecucion(s) == Some(i)
    ensures i < |s.procs|
    ensures var s2, p := Despacho(Admision(s)), Paso(s, q);
      if s.procs[i].tiempoRestante == 1 then
        && p.procs[i].estado == Finalizado
        && p.procs[i].tiempoFinalizacion == Some(s.tiempo + 1)
        && p.finalizados == s.finalizados + [i]
        && p.actual.None? && p.cola == s2.cola
      else if (s.tiempo + 1) % q == 0 then
        && p.procs[i].estado == Listo
        && p.cola == s2.cola + [i]
        && p.actual.None? && p.finalizados == s.finalizados
      else
        && p.procs[i].estado == Ejecutando
        && p.actual == Some(i) && p.cola == s2.cola && p.finalizados == s.finalizados
  {
    var s1 := Admision(s);
    AdmisionEfecto(s);
    DespachoEfecto(s1);
    var s2 := Despacho(s1);
    EjecucionEfecto(s2, q);
    AdmisionPreserva(s);
    DespachoPreserva(s1);
    assert Ubicado(s2, i);
  }

  /** The start time is set once, on the first dispatch, to the clock before the advance. */
  lemma PasoComienzo(s: Estado, q: int, i: nat)
    requires Inv(s, q) && EnEjecucion(s) == Some(i)
    ensures i < |s.procs|
    ensures Paso(s, q).procs[i].tiempoComienzo
         == if s.procs[i].tiempoComienzo.None? then Some(s.tiempo) else s.procs[i].tiempoComienzo
  {
    var s1 := Admision(s);
    AdmisionEfecto(s);
    DespachoEfecto(s1);
    var s2 := Despacho(s1);
    EjecucionEfecto(s2, q);
    if s.actual.Some? {
      assert Ubicado(s, i);
    }
  }

  /** A FINALIZADO process is never touched again and stays in the finished list. */
  lemma FinalizadoTerminal(s: Estado, q: int, j: int)
    requires Inv(s, q) && 0 <= j < |s.procs| && s.procs[j].estado == Finalizado
    ensures Paso(s, q).procs[j] == s.procs[j]
    ensures j in Paso(s, q).finalizados
  {
    assert Ubicado(s, j);
    var s1 := Admision(s);
    AdmisionEfecto(s);
    AdmisionPreserva(s);
    assert Ubicado(s1, j);
    DespachoEfecto(s1);
    DespachoPreserva(s1);
    var s2 := Despacho(s1);
    assert Ubicado(s2, j);
    EjecucionEfecto(s2, q);
  }

  /**
   * The finished list only grows, by the process that executed, which was not
   * finished before: each process finishes at most once.
   */
  lemma FinalizadosCrecen(s: Estado, q: int)
    requires Inv(s, q)
    ensures var f := Paso(s, q).finalizados;
      || f == s.finalizados
      || (EnEjecucion(s).Some? && EnEjecucion(s).value !in s.finalizados && f == s.finalizados + [EnEjecucion(s).value])
  {
    var s1 := Admision(s);
    AdmisionEfecto(s);
    DespachoEfecto(s1);
    var s2 := Despacho(s1);
    EjecucionEfecto(s2, q);
    AdmisionPreserva(s);
    DespachoPreserva(s1);
    if s2.actual.Some? {
      EnEjecucionFueraDeCola(s2);
    }
  }

  // ---------------------------------------------------------------------
  // The state history
  // ---------------------------------------------------------------------

  /** No two processes share an id. */
  predicate IdsUnicos(ps: seq<Registro>) {
    forall a, b :: 0 <= a < |ps| && 0 <= b < |ps| && a != b ==> ps[a].id != ps[b].id
  }

  /** After the pass over `ps`, tick `t` holds the code of each process's state under its id. */
  lemma {:induction false} RegistrarTodosFila(h: Historial, t: int, ps: seq<Registro>, j: int)
    requires IdsUnicos(ps) && 0 <= j < |ps|
    ensures t in RegistrarTodos(h, t, ps) && ps[j].id in RegistrarTodos(h, t, ps)[t]
    ensures RegistrarTodos(h, t, ps)[t][ps[j].id] == Codigo(ps[j].estado)
    decreases |ps|
  {
    var n := |ps|;
    var previos := ps[..n - 1];
    var ultimo := ps[n - 1];
    RegistrarEfecto(RegistrarTodos(h, t, previos), t, ultimo.id, ultimo.estado);
    if j < n - 1 {
      assert previos[j] == ps[j];
      assert IdsUnicos(previos) by {
        forall a, b | 0 <= a < |previos| && 0 <= b < |previos| && a != b
          ensures previos[a].id != previos[b].id
        {
          assert previos[a] == ps[a] && previos[b] == ps[b];
        }
      }
      RegistrarTodosFila(h, t, previos, j);
    }
  }

  /** The pass over `ps` files entries only under tick `t`. */
  lemma {:induction false} RegistrarTodosOtros(h: Historial, t: int, ps: seq<Registro>)
    ensures RegistrarTodos(h, t, ps).Keys <= h.Keys + {t}
    ensures forall u :: u in h && u != t ==> u in RegistrarTodos(h, t, ps) && RegistrarTodos(h, t, ps)[u] == h[u]
    decreases |ps|
  {
    if ps != [] {
      var previos := ps[..|ps| - 1];
      var ultimo := ps[|ps| - 1];
      RegistrarTodosOtros(h, t, previos);
      RegistrarEfecto(RegistrarTodos(h, t, previos), t, ultimo.id, ultimo.estado);
    }
  }

  /**
   * At the end of a tick from clock `t`, every process has an entry under `t`:
   * the code of the state it had after the admission pass, except the
   * executing process, whose entry is overwritten with E. Earlier ticks keep
   * their entries.
   */
  lemma HistorialPaso(s: Estado, q: int, j: int)
    requires Inv(s, q) && IdsUnicos(s.procs) && 0 <= j < |s.procs|
    ensures var h := Paso(s, q).historial;
      && s.tiempo in h && s.procs[j].id in h[s.tiempo]
      && h[s.tiempo][s.procs[j].id]
         == if EnEjecucion(s) == Some(j) then "E" else Codigo(Admision(s).procs[j].estado)
    ensures forall u :: u in s.historial && u != s.tiempo ==>
      u in Paso(s, q).historial && Paso(s, q).historial[u] == s.historial[u]
  {
    var t := s.tiempo;
    var s1 := Admision(s);
    AdmisionEfecto(s);
    AdmisionPreserva(s);
    assert IdsUnicos(s1.procs) by {
      forall a, b | 0 <= a < |s1.procs| && 0 <= b < |s1.procs| && a != b
        ensures s1.procs[a].id != s1.procs[b].id
      {
        assert s1.procs[a].id == s.procs[a].id && s1.procs[b].id == s.procs[b].id;
      }
    }
    RegistrarTodosFila(s.historial, t, s1.procs, j);
    RegistrarTodosOtros(s.historial, t, s1.procs);
    DespachoEfecto(s1);
    DespachoPreserva(s1);
    var s2 := Despacho(s1);
    EjecucionEfecto(s2, q);
    if s2.actual.Some? {
      var i := s2.actual.value;
      assert Ubicado(s2, i);
      var r := s2.procs[i];
      RegistrarEfecto(s2.historial, t, r.id, r.estado);
      assert r.id == s.procs[i].id;
      if i != j {
        assert s.procs[i].id != s.procs[j].id;
      }
    }
  }

  // ---------------------------------------------------------------------
  // What `tick` returns
  // ---------------------------------------------------------------------

  /** The indices a sequence holds. */
  function Elementos(xs: seq<nat>): (e: set<nat>)
    ensures forall x :: x in e <==> x in xs
    decreases |xs|
  {
    if xs == [] then {} else Elementos(xs[..|xs| - 1]) + {xs[|xs| - 1]}
  }

  /** A sequence without repetitions holds as many indices as it is long. */
  lemma {:induction false} CardinalSinRepetidos(xs: seq<nat>)
    requires SinRepetidos(xs)
    ensures |Elementos(xs)| == |xs|
    decreases |xs|
  {
    if xs != [] {
      var previos := xs[..|xs| - 1];
      var ultimo := xs[|xs| - 1];
      assert SinRepetidos(previos) by {
        forall a, b | 0 <= a < b < |previos| ensures previos[a] != previos[b] {
          assert previos[a] == xs[a] && previos[b] == xs[b];
        }
      }
      CardinalSinRepetidos(previos);
      assert ultimo !in previos by {
        forall a | 0 <= a < |previos| ensures previos[a] != ultimo {
          assert previos[a] == xs[a];
        }
      }
    }
  }

  /** The indices below `n`. */
  function Hasta(n: nat): (r: set<nat>)
    ensures forall x: nat :: x in r <==> x < n
    ensures |r| == n
    decreases n
  {
    if n == 0 then {} else Hasta(n - 1) + {n - 1}
  }

  lemma SubconjuntoCardinal(a: set<nat>, b: set<nat>)
    requires a <= b
    ensures |a| <= |b|
  {
    assert b == a + (b - a);
  }

  /**
   * `tick` returns `len(procesos_finalizados) < len(procesos)`: in a state that
   * satisfies the invariant this holds exactly when some process has not
   * finished, and the finished list is never longer than the process list.
   */
  lemma ContinuaSiPendiente(s: Estado)
    requires InvBase(s)
    ensures |s.finalizados| <= |s.procs|
    ensures Continua(s) <==> exists j :: 0 <= j < |s.procs| && s.procs[j].estado != Finalizado
  {
    var n := |s.procs|;
    var e := Elementos(s.finalizados);
    var rango := Hasta(n);
    CardinalSinRepetidos(s.finalizados);
    assert e <= rango;
    SubconjuntoCardinal(e, rango);
    if j :| 0 <= j < n && s.procs[j].estado != Finalizado {
      assert Ubicado(s, j);
      assert rango == (rango - {j}) + {j};
      SubconjuntoCardinal(e, rango - {j});
    } else {
      forall x: nat | x < n ensures x in e {
        assert Ubicado(s, x);
      }
      SubconjuntoCardinal(rango, e);
    }
  }
}
