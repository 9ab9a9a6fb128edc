/**
 * The scheduler invariant holds at every tick boundary: each stage of a tick
 * keeps it, and the initial state and `agregar_proceso` establish it.
 */
module Invariante {
  import opened Opciones
  import opened Procesos
  import opened RoundRobin

  lemma SinRepetidosConcat(a: seq<nat>, b: seq<nat>)
    requires SinRepetidos(a) && SinRepetidos(b)
    requires forall x :: x in a ==> x !in b
    ensures SinRepetidos(a + b)
  {
    forall i, j | 0 <= i < j < |a + b| ensures (a + b)[i] != (a + b)[j] {
      if j < |a| {
      } else if i >= |a| {
        assert (a + b)[i] == b[i - |a|] && (a + b)[j] == b[j - |a|];
      } else {
        assert (a + b)[i] == a[i] && a[i] in a;
        assert (a + b)[j] == b[j - |a|] && b[j - |a|] in b;
      }
    }
  }

  /** The timing facts of a record stay true as the clock moves forward. */
  lemma CoherenteMonotono(r: Registro, t: int, t': int)
    requires Coherente(r, t) && t <= t'
    ensures Coherente(r, t')
  {
  }

  /** The admission pass keeps the invariant and leaves slot, clock and counters alone. */
  lemma AdmisionPreserva(s: Estado)
    requires InvBase(s)
    ensures InvBase(Admision(s))
    ensures MismaIdentidad(s.procs, Admision(s).procs)
  {
    var s1 := Admision(s);
    var t := s.tiempo;
    var adm := Llegados(s.procs, t, |s.procs|);
    LlegadosOrden(s.procs, t, |s.procs|);
    forall x | x in s.cola ensures x !in adm {
      assert Ubicado(s, x);
    }
    SinRepetidosConcat(s.cola, adm);
    forall j: nat | j < |s.procs| ensures Ubicado(s1, j) {
      assert Ubicado(s, j);
      if Llega(s.procs[j], t) {
        assert j in adm;
      } else {
        assert j !in adm;
      }
    }
  }

  /** Dispatch keeps the invariant. */
  lemma DespachoPreserva(s: Estado)
    requires InvBase(s)
    ensures InvBase(Despacho(s))
    ensures MismaIdentidad(s.procs, Despacho(s).procs)
  {
    if s.actual.None? && s.cola != [] {
      var s2 := Despacho(s);
      var i := s.cola[0];
      assert i in s.cola;
      assert i !in s.cola[1..];
      forall j: nat | j < |s.procs| ensures Ubicado(s2, j) {
        assert Ubicado(s, j);
        if j != i {
          assert j in s.cola[1..] <==> j in s.cola;
        }
      }
    }
  }

  /** Execution, the finish-or-preempt decision and the clock advance restore `Inv`. */
  lemma EjecucionPreserva(s: Estado, q: int)
    requires q > 0 && InvBase(s)
    ensures Inv(Ejecucion(s, q), q)
    ensures MismaIdentidad(s.procs, Ejecucion(s, q).procs)
  {
    var s3 := Ejecucion(s, q);
    var t := s.tiempo;
    if s.actual.None? {
      forall j: nat | j < |s.procs| ensures Ubicado(s3, j) {
        assert Ubicado(s, j);
        CoherenteMonotono(s.procs[j], t, t + 1);
      }
    } else {
      var i := s.actual.value;
      assert Ubicado(s, i);
      var r := s.procs[i];
      if r.tiempoRestante == 1 {
        forall x | x in s.finalizados ensures x !in [i] {
          assert Ubicado(s, x);
        }
        SinRepetidosConcat(s.finalizados, [i]);
      } else if (t + 1) % q == 0 {
        forall x | x in s.cola ensures x !in [i] {
          assert Ubicado(s, x);
        }
        SinRepetidosConcat(s.cola, [i]);
      }
      forall j: nat | j < |s.procs| ensures Ubicado(s3, j) {
        assert Ubicado(s, j);
        if j != i {
          CoherenteMonotono(s.procs[j], t, t + 1);
        }
      }
    }
  }

  /** Every tick keeps the invariant. */
  lemma PasoPreservaInv(s: Estado, q: int)
    requires Inv(s, q)
    ensures Inv(Paso(s, q), q)
    ensures MismaIdentidad(s.procs, Paso(s, q).procs)
  {
    AdmisionPreserva(s);
    DespachoPreserva(Admision(s));
    EjecucionPreserva(Despacho(Admision(s)), q);
  }

  /** A freshly constructed scheduler satisfies the invariant. */
  lemma VacioInv(q: int)
    requires q > 0
    ensures Inv(Vacio(), q)
  {
  }

  /** The invariant says nothing about the history: any history keeps it. */
  lemma HistorialLibre(s: Estado, q: int, h: Historial)
    requires Inv(s, q)
    ensures Inv(s.(historial := h), q)
  {
    forall j: nat | j < |s.procs| ensures Ubicado(s.(historial := h), j) {
      assert Ubicado(s, j);
    }
  }

  /** What `agregar_proceso` demands of a newcomer: NUEVO with its whole burst left. */
  predicate Admisible(r: Registro) {
    r.estado == Nuevo && 0 < r.tiempoRestante == r.tiempoEjecucion
  }

  /** Appending an admissible process keeps the invariant. */
  lemma AgregarPreserva(s: Estado, q: int, r: Registro)
    requires Inv(s, q) && Admisible(r)
    ensures Inv(s.(procs := s.procs + [r]), q)
  {
    var s' := s.(procs := s.procs + [r]);
    forall j: nat | j < |s'.procs| ensures Ubicado(s', j) {
      if j < |s.procs| {
        assert Ubicado(s, j);
      } else {
        assert s'.procs[j] == r;
        assert j !in s.cola && j !in s.finalizados;
      }
    }
  }
}
