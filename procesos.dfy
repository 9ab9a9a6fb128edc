/**
 * The process record of the simulator and the factory that builds it
 * (src/core/process.py).
 */
module Procesos {
  import opened Opciones
  import opened Texto

  /** The life cycle of a process: NUEVO, LISTO, EJECUTANDO, FINALIZADO. */
  datatype EstadoProceso = Nuevo | Listo | Ejecutando | Finalizado

  /**
   * The value of a process record at one instant: every field of the
   * dataclass, in declaration order.
   */
  datatype Registro = Registro(
    id: int,
    tiempoLlegada: int,
    tiempoEjecucion: int,
    prioridad: Option<int>,
    estado: EstadoProceso,
    tiempoRestante: int,
    tiempoEspera: int,
    tiempoRespuesta: Option<int>,
    tiempoFinalizacion: Option<int>,
    tiempoComienzo: Option<int>)
  {
    /** The derived turnaround time: completion minus arrival, unset until completion. */
    function TiempoRetorno(): (r: Option<int>)
      ensures r.None? <==> tiempoFinalizacion.None?
      ensures r.Some? ==> tiempoFinalizacion.value == tiempoLlegada + r.value
    {
      if tiempoFinalizacion.None? then None else Some(tiempoFinalizacion.value - tiempoLlegada)
    }
  }

  /** What a freshly built process holds: the given identity and defaults elsewhere. */
  function Inicial(id: int, llegada: int, ejecucion: int, prioridad: Option<int>): (r: Registro)
    ensures r.estado == Nuevo && r.tiempoRestante == r.tiempoEjecucion && r.tiempoEspera == 0
    ensures r.tiempoRespuesta.None? && r.tiempoComienzo.None? && r.tiempoFinalizacion.None?
  {
    Registro(id, llegada, ejecucion, prioridad, Nuevo, ejecucion, 0, None, None, None)
  }

  /** The key "P{id}" under which the state history files a process. */
  function Clave(id: int): (k: string)
    ensures |k| >= 2 && k[0] == 'P'
    ensures forall j :: 1 <= j < |k| ==> EsDigito(k[j]) || k[j] == '-'
    ensures k[1] == '-' <==> id < 0
  {
    "P" + Entero(id)
  }

  /** `__str__`: "P{id} (LL:{llegada}, TE:{ejecucion})". */
  function Rotulo(r: Registro): (s: string)
    ensures |s| > |Clave(r.id)| && s[..|Clave(r.id)|] == Clave(r.id)
    ensures s[|s| - 1] == ')'
  {
    Clave(r.id) + " (LL:" + Entero(r.tiempoLlegada) + ", TE:" + Entero(r.tiempoEjecucion) + ")"
  }

  /** Different ids give different history keys, so keying the history by id is exact. */
  lemma ClaveInyectiva(a: int, b: int)
    requires Clave(a) == Clave(b)
    ensures a == b
  {
    assert Entero(a) == Clave(a)[1..] && Entero(b) == Clave(b)[1..];
    EnteroInyectivo(a, b);
  }

  lemma SinSeparador(i: int, c: char)
    requires c == ' ' || c == ','
    ensures c !in Entero(i)
  {
  }

  /** The rendering, bracketed so that each separator follows one number. */
  lemma RotuloPartes(r: Registro)
    ensures Rotulo(r) == "P" + (Entero(r.id) + [' '] + ("(LL:" + (Entero(r.tiempoLlegada) + [','] +
                          (" TE:" + (Entero(r.tiempoEjecucion) + ")")))))
  {
  }

  lemma QuitarPrefijo(p: string, x: string, y: string)
    requires p + x == p + y
    ensures x == y
  {
    assert x == (p + x)[|p|..] && y == (p + y)[|p|..];
  }

  /**
   * The rendering of a process is unambiguous: it determines the id, the
   * arrival time and the burst time.
   */
  lemma RotuloDeterminaCampos(a: Registro, b: Registro)
    requires Rotulo(a) == Rotulo(b)
    ensures a.id == b.id && a.tiempoLlegada == b.tiempoLlegada && a.tiempoEjecucion == b.tiempoEjecucion
  {
    var ea, eb := Entero(a.tiempoEjecucion) + ")", Entero(b.tiempoEjecucion) + ")";
    var ta, tb := " TE:" + ea, " TE:" + eb;
    var la, lb := Entero(a.tiempoLlegada) + [','] + ta, Entero(b.tiempoLlegada) + [','] + tb;
    var ra, rb := "(LL:" + la, "(LL:" + lb;
    RotuloPartes(a);
    RotuloPartes(b);
    QuitarPrefijo("P", Entero(a.id) + [' '] + ra, Entero(b.id) + [' '] + rb);
    SinSeparador(a.id, ' ');
    SinSeparador(b.id, ' ');
    Separa(Entero(a.id), ra, Entero(b.id), rb, ' ');
    EnteroInyectivo(a.id, b.id);
    QuitarPrefijo("(LL:", la, lb);
    SinSeparador(a.tiempoLlegada, ',');
    SinSeparador(b.tiempoLlegada, ',');
    Separa(Entero(a.tiempoLlegada), ta, Entero(b.tiempoLlegada), tb, ',');
    EnteroInyectivo(a.tiempoLlegada, b.tiempoLlegada);
    QuitarPrefijo(" TE:", ea, eb);
    assert Entero(a.tiempoEjecucion) == ea[..|ea| - 1];
    assert Entero(b.tiempoEjecucion) == eb[..|eb| - 1];
    EnteroInyectivo(a.tiempoEjecucion, b.tiempoEjecucion);
  }

  /**
   * A process (the dataclass `Proceso`). The scheduler updates its state and
   * timing fields in place.
   */
  class Proceso {
    var id: int
    var tiempoLlegada: int
    var tiempoEjecucion: int
    var prioridad: Option<int>
    var estado: EstadoProceso
    var tiempoRestante: int
    var tiempoEspera: int
    var tiempoRespuesta: Option<int>
    var tiempoFinalizacion: Option<int>
    var tiempoComienzo: Option<int>

    /** The current value of every field. */
    function Vista(): Registro
      reads this
    {
      Registro(id, tiempoLlegada, tiempoEjecucion, prioridad, estado, tiempoRestante,
               tiempoEspera, tiempoRespuesta, tiempoFinalizacion, tiempoComienzo)
    }

    /**
     * The generated dataclass constructor with its field defaults, followed by
     * `__post_init__`, which overwrites whatever remaining time was passed in
     * with the burst time.
     */
    constructor (id: int, tiempoLlegada: int, tiempoEjecucion: int,
                 prioridad: Option<int> := None,
                 estado: EstadoProceso := Nuevo,
                 tiempoRestante: int := 0,
                 tiempoEspera: int := 0,
                 tiempoRespuesta: Option<int> := None,
                 tiempoFinalizacion: Option<int> := None,
                 tiempoComienzo: Option<int> := None)
      ensures Vista() == Registro(id, tiempoLlegada, tiempoEjecucion, prioridad, estado,
                                  tiempoEjecucion, tiempoEspera, tiempoRespuesta,
                                  tiempoFinalizacion, tiempoComienzo)
    {
      this.id := id;
      this.tiempoLlegada := tiempoLlegada;
      this.tiempoEjecucion := tiempoEjecucion;
      this.prioridad := prioridad;
      this.estado := estado;
      this.tiempoRestante := tiempoRestante;
      this.tiempoEspera := tiempoEspera;
      this.tiempoRespuesta := tiempoRespuesta;
      this.tiempoFinalizacion := tiempoFinalizacion;
      this.tiempoComienzo := tiempoComienzo;
      new;
      PostInit();
    }

    /** `__post_init__`: the remaining time starts as the whole burst. */
    method PostInit()
      modifies this
      ensures Vista() == old(Vista()).(tiempoRestante := old(tiempoEjecucion))
    {
      tiempoRestante := tiempoEjecucion;
    }

    /** The `tiempo_retorno` property. */
    function TiempoRetorno(): (r: Option<int>)
      reads this
      ensures r.None? <==> tiempoFinalizacion.None?
      ensures r.Some? ==> r.value == tiempoFinalizacion.value - tiempoLlegada
    {
      Vista().TiempoRetorno()
    }

    /** `__str__`. */
    function ToString(): (s: string)
      reads this
      ensures |s| > 1 && s[0] == 'P'
    {
      Rotulo(Vista())
    }
  }

  /**
   * The class attribute `FabricaProcesos._next_id`. Python has exactly one;
   * here it is an object that the factories share only when they are built
   * with the same counter, as `IdsCompartidos` does.
   */
  class ContadorGlobal {
    var siguienteId: int

    constructor ()
      ensures siguienteId == 1
    {
      siguienteId := 1;
    }
  }

  /** `FabricaProcesos`: builds processes, explicitly or with random times. */
  class FabricaProcesos {
    const contador: ContadorGlobal
    var minLlegada: int
    var maxLlegada: int
    var minDuracion: int
    var maxDuracion: int

    /** The ranges of the random variant: arrival in [0, 10], burst in [2, 10]. */
    constructor (contador: ContadorGlobal)
      ensures this.contador == contador
      ensures minLlegada == 0 && maxLlegada == 10 && minDuracion == 2 && maxDuracion == 10
    {
      this.contador := contador;
      minLlegada, maxLlegada := 0, 10;
      minDuracion, maxDuracion := 2, 10;
    }

    /**
     * `crear_proceso_aleatorio`: takes the next id from the shared counter and
     * draws arrival and burst within the factory's ranges. `random.randint`
     * raises ValueError on an empty range; the counter has moved by then, and
     * the result is `None`.
     */
    method CrearProcesoAleatorio() returns (r: Option<Proceso>)
      modifies contador
      ensures contador.siguienteId == old(contador.siguienteId) + 1
      ensures r.None? <==> minLlegada > maxLlegada || minDuracion > maxDuracion
      ensures r.Some? ==>
        && fresh(r.value)
        && r.value.id == old(contador.siguienteId)
        && minLlegada <= r.value.tiempoLlegada <= maxLlegada
        && minDuracion <= r.value.tiempoEjecucion <= maxDuracion
        && r.value.Vista() == Inicial(r.value.id, r.value.tiempoLlegada, r.value.tiempoEjecucion, None)
    {
      var idProceso := contador.siguienteId;
      contador.siguienteId := contador.siguienteId + 1;
      if minLlegada > maxLlegada {
        return None;
      }
      var tiempoLlegada :| minLlegada <= tiempoLlegada <= maxLlegada;
      if minDuracion > maxDuracion {
        return None;
      }
      var tiempoEjecucion :| minDuracion <= tiempoEjecucion <= maxDuracion;
      var p := new Proceso(idProceso, tiempoLlegada, tiempoEjecucion);
      r := Some(p);
    }

    /** `crear_proceso`: a process carrying exactly the given id, times and priority. */
    static method CrearProceso(id: int, tiempoLlegada: int, tiempoEjecucion: int,
                               prioridad: Option<int> := None) returns (p: Proceso)
      ensures fresh(p)
      ensures p.Vista() == Inicial(id, tiempoLlegada, tiempoEjecucion, prioridad)
    {
      p := new Proceso(id, tiempoLlegada, tiempoEjecucion, prioridad);
    }

    /**
     * `crear_procesos_aleatorios`: `num_procesos` processes numbered 1, 2, ...
     * in order, arrival in [0, max_llegada] and burst in [1, max_ejecucion];
     * the shared counter is not used. A negative count gives no process. The
     * first draw raises ValueError when either range is empty, and the result
     * is then `None`.
     */
    static method CrearProcesosAleatorios(numProcesos: int, maxEjecucion: int := 10,
                                          maxLlegada: int := 20) returns (r: Option<seq<Proceso>>)
      ensures r.None? <==> numProcesos > 0 && (maxLlegada < 0 || maxEjecucion < 1)
      ensures r.Some? ==> |r.value| == if numProcesos < 0 then 0 else numProcesos
      ensures r.Some? ==> forall i :: 0 <= i < |r.value| ==> fresh(r.value[i])
      ensures r.Some? ==> forall i, j :: 0 <= i < j < |r.value| ==> r.value[i] != r.value[j]
      ensures r.Some? ==> forall i :: 0 <= i < |r.value| ==>
        && r.value[i].Vista() == Inicial(i + 1, r.value[i].tiempoLlegada, r.value[i].tiempoEjecucion, None)
        && 0 <= r.value[i].tiempoLlegada <= maxLlegada
        && 1 <= r.value[i].tiempoEjecucion <= maxEjecucion
    {
      var ps: seq<Proceso> := [];
      var i := 0;
      while i < numProcesos
        invariant 0 <= numProcesos ==> i <= numProcesos
        invariant numProcesos < 0 ==> i == 0
        invariant i > 0 ==> 0 <= maxLlegada && 1 <= maxEjecucion
        invariant |ps| == i
        invariant forall k :: 0 <= k < |ps| ==> fresh(ps[k])
        invariant forall k, j :: 0 <= k < j < |ps| ==> ps[k] != ps[j]
        invariant forall k :: 0 <= k < |ps| ==>
          && ps[k].Vista() == Inicial(k + 1, ps[k].tiempoLlegada, ps[k].tiempoEjecucion, None)
          && 0 <= ps[k].tiempoLlegada <= maxLlegada
          && 1 <= ps[k].tiempoEjecucion <= maxEjecucion
      {
        if maxLlegada < 0 {
          return None;
        }
        var tiempoLlegada :| 0 <= tiempoLlegada <= maxLlegada;
        if maxEjecucion < 1 {
          return None;
        }
        var tiempoEjecucion :| 1 <= tiempoEjecucion <= maxEjecucion;
        var proceso := CrearProceso(i + 1, tiempoLlegada, tiempoEjecucion);
        ps := ps + [proceso];
        i := i + 1;
      }
      r := Some(ps);
    }
  }

  /**
   * Factories built with the same counter draw from it as Python's factories
   * draw from the one class attribute: ids handed out by two factories in
   * turn keep increasing by one, and their default ranges never raise.
   */
  method IdsCompartidos(contador: ContadorGlobal) returns (a: Proceso, b: Proceso, c: Proceso)
    modifies contador
    ensures b.id == a.id + 1 && c.id == b.id + 1
    ensures contador.siguienteId == old(contador.siguienteId) + 3
  {
    var f1 := new FabricaProcesos(contador);
    var f2 := new FabricaProcesos(contador);
    var ra := f1.CrearProcesoAleatorio();
    var rb := f2.CrearProcesoAleatorio();
    var rc := f1.CrearProcesoAleatorio();
    a, b, c := ra.value, rb.value, rc.value;
  }
}
