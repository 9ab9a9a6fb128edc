/**
 * Runs of many ticks: a run always ends, a process holds the slot for less
 * than a quantum of consecutive tick boundaries, and a tick after the end
 * only moves the clock.
 */
module Corrida {
  import opened Opciones
  import opened Procesos
  import opened RoundRobin
  import opened Invariante
  import opened Propiedades

  /** Tick `m` after clock `t` ends on a quantum boundary. */
  predicate Frontera(t: int, m: int, q: int)
    requires q > 0
  {
    (t + m) % q == 0
  }

  lemma FronteraCorre(t: int, n: int, q: int)
    requires q > 0
    ensures Frontera(t + 1, n - 1, q) == Frontera(t, n, q)
  {
    assert t + 1 + (n - 1) == t + n;
  }

  /**
   * The state after `n` calls of `tick`: the clock has moved by `n`, and a
   * process is in the slot only if the `n`-th tick did not end on a quantum
   * boundary.
   */
  function Iter(s: Estado, n: nat, q: int): (e: Estado)
    requires Inv(s, q)
    ensures e.tiempo == s.tiempo + n
    ensures e.actual.Some? ==> !Frontera(s.tiempo, n, q)
    decreases n
  {
    if n == 0 then s
    else
      PasoPreservaInv(s, q);
      PasoReloj(s, q);
      FronteraCorre(s.tiempo, n, q);
      Iter(Paso(s, q), n - 1, q)
  }

  /** Running `n + 1` ticks is one tick followed by `n` more. */
  lemma IterSiguiente(s: Estado, n: nat, q: int)
    requires Inv(s, q)
    ensures Inv(Paso(s, q), q)
    ensures Iter(s, n + 1, q) == Iter(Paso(s, q), n, q)
  {
    PasoPreservaInv(s, q);
  }

  // ---------------------------------------------------------------------
  // Every run ends
  // ---------------------------------------------------------------------

  /**
   * The work a process still stands for at clock `t`: its remaining time, plus
   * for a NUEVO process the ticks until it arrives.
   */
  function Pendiente(r: Registro, t: int): nat {
    (if r.tiempoRestante > 0 then r.tiempoRestante else 0)
    + (if r.estado == Nuevo && r.tiempoLlegada > t then r.tiempoLlegada - t else 0)
  }

  /** The total pending work of a process list at clock `t`. */
  function Medida(ps: seq<Registro>, t: int): nat
    decreases |ps|
  {
    if ps == [] then 0 else Pendiente(ps[0], t) + Medida(ps[1..], t)
  }

  lemma {:induction false} MedidaNoCrece(a: seq<Registro>, b: seq<Registro>, t: int, t': int)
    requires |a| == |b|
    requires forall j :: 0 <= j < |a| ==> Pendiente(b[j], t') <= Pendiente(a[j], t)
    ensures Medida(b, t') <= Medida(a, t)
    decreases |a|
  {
    if a != [] {
      MedidaNoCrece(a[1..], b[1..], t, t');
    }
  }

  lemma {:induction false} MedidaDecrece(a: seq<Registro>, b: seq<Registro>, t: int, t': int, k: nat)
    requires |a| == |b| && k < |a|
    requires forall j :: 0 <= j < |a| ==> Pendiente(b[j], t') <= Pendiente(a[j], t)
    requires Pendiente(b[k], t') < Pendiente(a[k], t)
    ensures Medida(b, t') < Medida(a, t)
    decreases |a|
  {
    if k == 0 {
      MedidaNoCrece(a[1..], b[1..], t, t');
    } else {
      MedidaDecrece(a[1..], b[1..], t, t', k - 1);
    }
  }

  /**
   * No process's pending work grows in a tick; it shrinks for the process that
   * executes and for a NUEVO process that has not yet arrived.
   */
  lemma PendienteNoCrece(s: Estado, q: int, j: int)
    requires Inv(s, q) && 0 <= j < |s.procs|
    ensures Pendiente(Paso(s, q).procs[j], s.tiempo + 1) <= Pendiente(s.procs[j], s.tiempo)
    ensures EnEjecucion(s) == Some(j) || (s.procs[j].estado == Nuevo && s.procs[j].tiempoLlegada > s.tiempo)
      ==> Pendiente(Paso(s, q).procs[j], s.tiempo + 1) < Pendiente(s.procs[j], s.tiempo)
  {
    var t := s.tiempo;
    var r := s.procs[j];
    var s1 := Admision(s);
    AdmisionEfecto(s);
    AdmisionPreserva(s);
    DespachoEfecto(s1);
    DespachoPreserva(s1);
    var s2 := Despacho(s1);
    EjecucionEfecto(s2, q);
    var r' := Paso(s, q).procs[j];
    PasoRestante(s, q, j);
    assert Ubicado(s, j);
    if r'.estado == Nuevo {
      assert Ubicado(s2, j);
      assert s1.procs[j].estado == Nuevo;
    }
    if EnEjecucion(s) == Some(j) {
      assert Ubicado(s2, j);
    }
  }

  /**
   * While some process has not finished, some process's pending work shrinks
   * in the next tick: the one that executes, or else one still to arrive.
   */
  lemma {:induction false} AlgunoDecrece(s: Estado, q: int) returns (k: nat)
    requires Inv(s, q) && Continua(s)
    ensures k < |s.procs|
    ensures EnEjecucion(s) == Some(k) || (s.procs[k].estado == Nuevo && s.procs[k].tiempoLlegada > s.tiempo)
  {
    if EnEjecucion(s).Some? {
      k := EnEjecucion(s).value;
      PasoDecision(s, q, k);
    } else {
      ContinuaSiPendiente(s);
      var j :| 0 <= j < |s.procs| && s.procs[j].estado != Finalizado;
      PasoOcioso(s, q);
      AdmisionRegistro(s, j);
      k := j;
    }
  }

  /** While some process has not finished, every tick lowers the total pending work. */
  lemma {:induction false} PasoDecreceMedida(s: Estado, q: int)
    requires Inv(s, q) && Continua(s)
    ensures Medida(Paso(s, q).procs, s.tiempo + 1) < Medida(s.procs, s.tiempo)
  {
    var p := Paso(s, q);
    PasoPreservaInv(s, q);
    forall j | 0 <= j < |s.procs| ensures Pendiente(p.procs[j], s.tiempo + 1) <= Pendiente(s.procs[j], s.tiempo) {
      PendienteNoCrece(s, q, j);
    }
    var k := AlgunoDecrece(s, q);
    PendienteNoCrece(s, q, k);
    MedidaDecrece(s.procs, p.procs, s.tiempo, s.tiempo + 1, k);
  }

  /**
   * Every run ends: within as many ticks as the initial pending work, `tick`
   * reaches a state in which it returns false.
   */
  lemma {:induction false} Termina(s: Estado, q: int)
    requires Inv(s, q)
    ensures exists n: nat :: n <= Medida(s.procs, s.tiempo) && !Continua(Iter(s, n, q))
    decreases Medida(s.procs, s.tiempo)
  {
    if Continua(s) {
      PasoDecreceMedida(s, q);
      PasoPreservaInv(s, q);
      PasoReloj(s, q);
      var p := Paso(s, q);
      Termina(p, q);
      var n: nat :| n <= Medida(p.procs, p.tiempo) && !Continua(Iter(p, n, q));
      assert Iter(s, n + 1, q) == Iter(p, n, q);
    } else {
      assert Iter(s, 0, q) == s;
    }
  }

  /**
   * Once every process has finished, a tick only advances the clock and
   * records each process as finished; `tick` goes on returning false.
   */
  lemma PasoTerminado(s: Estado, q: int)
    requires Inv(s, q) && !Continua(s)
    ensures Paso(s, q) == s.(tiempo := s.tiempo + 1, historial := RegistrarTodos(s.historial, s.tiempo, s.procs))
    ensures !Continua(Paso(s, q))
  {
    ContinuaSiPendiente(s);
    var s1 := Admision(s);
    AdmisionEfecto(s);
    forall j | 0 <= j < |s.procs| ensures s1.procs[j] == s.procs[j] && !Llega(s.procs[j], s.tiempo) {
      assert Ubicado(s, j);
    }
    assert s1.procs == s.procs;
    LlegadosVacio(s.procs, s.tiempo, |s.procs|);
    SinListosColaVacia(s);
    if s.actual.Some? {
      EnEjecucionFueraDeCola(s);
    }
    assert s1 == s.(historial := RegistrarTodos(s.historial, s.tiempo, s.procs));
    DespachoEfecto(s1);
    EjecucionEfecto(s1, q);
  }

  // ---------------------------------------------------------------------
  // The quantum bound
  // ---------------------------------------------------------------------

  lemma ProductoNoNegativo(a: int, q: int)
    requires a >= 0 && q > 0
    ensures a * q >= 0
  {
  }

  /** The remainder of Euclidean division is the unique one. */
  lemma DivisionUnica(x: int, q: int, a: int, b: int)
    requires q > 0 && 0 <= b < q && x == a * q + b
    ensures x % q == b
  {
    var a', b' := x / q, x % q;
    assert x == a' * q + b';
    if a > a' {
      ProductoNoNegativo(a - a' - 1, q);
    } else if a < a' {
      ProductoNoNegativo(a' - a - 1, q);
    }
  }

  /** From any clock, a multiple of `q` is at most `q` ticks away. */
  lemma SiguienteMultiplo(t: int, q: int)
    requires q > 0
    ensures 1 <= q - t % q <= q
    ensures (t + (q - t % q)) % q == 0
  {
    var c := t / q;
    var r := t % q;
    assert t == c * q + r;
    assert t + (q - r) == (c + 1) * q;
    DivisionUnica(t + (q - r), q, c + 1, 0);
  }

  /** Among `q` consecutive ticks one ends on a quantum boundary. */
  lemma SinFrontera(t: int, q: int, k: nat)
    requires q > 0
    requires forall m :: 1 <= m <= k ==> !Frontera(t, m, q)
    ensures k < q
  {
    SiguienteMultiplo(t, q);
    assert Frontera(t, q - t % q, q);
  }

  /**
   * No process holds the slot across `q` consecutive tick boundaries: if
   * process `i` is in the slot after each of the ticks 1..k, then k < q, so it
   * executes at most `q` ticks in a row before it finishes or is preempted.
   */
  lemma {:induction false} CuantoAcotado(s: Estado, q: int, i: nat, k: nat)
    requires Inv(s, q)
    requires forall m :: 1 <= m <= k ==> Iter(s, m, q).actual == Some(i)
    ensures k < q
  {
    forall m | 1 <= m <= k ensures !Frontera(s.tiempo, m, q) {
      assert Iter(s, m, q).actual.Some?;
    }
    SinFrontera(s.tiempo, q, k);
  }
}
