/**
 * The per-frame vowel classifier of `GestureDetector`: named landmarks, the
 * finger and distance features built from them, the A, E and I predicates and
 * the first-match-wins dispatch over A, E, I, O, U.
 *
 * Everything here is a pure function of an immutable `Detector` value and one
 * frame's landmarks, so classifying the same landmarks twice gives the same label.
 */
module GestureDetector {
  import opened Wrappers
  import opened Config
  import opened Geometry

  datatype Vocal = A | E | I | O | U

  /** The four non-thumb fingers, the keys of the finger-state dictionary. */
  datatype Dedo = Indice | Medio | Anular | Menique

  /**
   * Positions of the named joints in the tracker's list of landmarks (the
   * `HandLandmark` enumeration of the tracking library, whose values are not
   * part of this model).
   */
  datatype IndicesMano = IndicesMano(
    wrist: nat,
    thumbMcp: nat, thumbIp: nat, thumbTip: nat,
    indexMcp: nat, indexPip: nat, indexTip: nat,
    middleMcp: nat, middlePip: nat, middleTip: nat,
    ringMcp: nat, ringPip: nat, ringTip: nat,
    pinkyMcp: nat, pinkyPip: nat, pinkyTip: nat)

  /** The sixteen named landmarks a frame is reduced to. */
  datatype Landmarks = Landmarks(
    muneca: Point,
    pulgarMcp: Point, pulgarIp: Point, pulgarTip: Point,
    indiceMcp: Point, indicePip: Point, indiceTip: Point,
    medioMcp: Point, medioPip: Point, medioTip: Point,
    anularMcp: Point, anularPip: Point, anularTip: Point,
    meniqueMcp: Point, meniquePip: Point, meniqueTip: Point)

  /** One finger's entry of the finger-state dictionary. */
  datatype EstadoDedo = EstadoDedo(doblado: bool, angulo: real)

  datatype EstadoDedos = EstadoDedos(indice: EstadoDedo, medio: EstadoDedo, anular: EstadoDedo, menique: EstadoDedo)

  /** The five named distances; `pulgarMcp` is thumb tip to index MCP. */
  datatype Distancias = Distancias(
    pulgarIndice: real, indiceMedio: real, medioAnular: real, anularMenique: real, pulgarMcp: real)

  /** Indexing a list of landmarks past its end raises an index error. */
  datatype ErrorDeteccion = IndiceFueraDeRango

  /**
   * What a detector is configured with: the geometry helpers, the thresholds
   * loaded from the configuration, the landmark positions, and the O and U
   * predicates, whose bodies are not part of this model.
   */
  datatype Detector = Detector(
    geometria: Geometria,
    umbrales: Umbrales,
    indices: IndicesMano,
    esVocalO: (EstadoDedos, Distancias, Landmarks) -> bool,
    esVocalU: (EstadoDedos, Distancias, Landmarks) -> bool)

  // ---------------------------------------------------------------------------
  // Landmark extraction
  // ---------------------------------------------------------------------------

  /** The sixteen positions, in the order of the fields of `Landmarks`. */
  function Indices(ix: IndicesMano): (r: seq<nat>)
    ensures |r| == 16
  {
    [ix.wrist, ix.thumbMcp, ix.thumbIp, ix.thumbTip,
     ix.indexMcp, ix.indexPip, ix.indexTip,
     ix.middleMcp, ix.middlePip, ix.middleTip,
     ix.ringMcp, ix.ringPip, ix.ringTip,
     ix.pinkyMcp, ix.pinkyPip, ix.pinkyTip]
  }

  /** The sixteen named points, in the order of the fields of `Landmarks`. */
  function Puntos(lm: Landmarks): (r: seq<Point>)
    ensures |r| == 16
  {
    [lm.muneca, lm.pulgarMcp, lm.pulgarIp, lm.pulgarTip,
     lm.indiceMcp, lm.indicePip, lm.indiceTip,
     lm.medioMcp, lm.medioPip, lm.medioTip,
     lm.anularMcp, lm.anularPip, lm.anularTip,
     lm.meniqueMcp, lm.meniquePip, lm.meniqueTip]
  }

  /** Every named position lies inside a list of length `n`. */
  predicate EnRango(ix: IndicesMano, n: nat) {
    forall k :: 0 <= k < 16 ==> Indices(ix)[k] < n
  }

  /**
   * `_extraer_landmarks`: each name picks the landmark at its position; a
   * position past the end of the list is an error.
   */
  function ExtraerLandmarks(lm: seq<Point>, ix: IndicesMano): (r: Result<Landmarks, ErrorDeteccion>)
    ensures r.Ok? <==> EnRango(ix, |lm|)
    ensures r.Ok? ==> forall k :: 0 <= k < 16 ==> Puntos(r.value)[k] == lm[Indices(ix)[k]]
  {
    if EnRango(ix, |lm|) then
      var at := Indices(ix);
      assert at[0] < |lm| && at[1] < |lm| && at[2] < |lm| && at[3] < |lm| && at[4] < |lm| && at[5] < |lm|;
      assert at[6] < |lm| && at[7] < |lm| && at[8] < |lm| && at[9] < |lm| && at[10] < |lm| && at[11] < |lm|;
      assert at[12] < |lm| && at[13] < |lm| && at[14] < |lm| && at[15] < |lm|;
      Ok(Landmarks(
        lm[ix.wrist],
        lm[ix.thumbMcp], lm[ix.thumbIp], lm[ix.thumbTip],
        lm[ix.indexMcp], lm[ix.indexPip], lm[ix.indexTip],
        lm[ix.middleMcp], lm[ix.middlePip], lm[ix.middleTip],
        lm[ix.ringMcp], lm[ix.ringPip], lm[ix.ringTip],
        lm[ix.pinkyMcp], lm[ix.pinkyPip], lm[ix.pinkyTip]))
    else
      Err(IndiceFueraDeRango)
  }

  /** The named points determine the record. */
  lemma PuntosInyectiva(a: Landmarks, b: Landmarks)
    requires Puntos(a) == Puntos(b)
    ensures a == b
  {
  }

  /**
   * Extraction reads the list only at the sixteen named positions: two lists
   * that agree there give the same named landmarks (so a list longer than needed,
   * or one differing at an unnamed position, yields the same record).
   */
  lemma ExtraerSoloLeeIndices(lm1: seq<Point>, lm2: seq<Point>, ix: IndicesMano)
    requires EnRango(ix, |lm1|) && EnRango(ix, |lm2|)
    requires forall k :: 0 <= k < 16 ==> lm1[Indices(ix)[k]] == lm2[Indices(ix)[k]]
    ensures ExtraerLandmarks(lm1, ix) == ExtraerLandmarks(lm2, ix)
  {
    var r1, r2 := ExtraerLandmarks(lm1, ix), ExtraerLandmarks(lm2, ix);
    assert Puntos(r1.value) == Puntos(r2.value) by {
      forall k | 0 <= k < 16 ensures Puntos(r1.value)[k] == Puntos(r2.value)[k] { }
    }
    PuntosInyectiva(r1.value, r2.value);
  }

  // ---------------------------------------------------------------------------
  // Finger states and distances
  // ---------------------------------------------------------------------------

  /** `estado[d]`: the state of finger `d`. */
  function Estado(e: EstadoDedos, d: Dedo): EstadoDedo {
    match d
    case Indice => e.indice
    case Medio => e.medio
    case Anular => e.anular
    case Menique => e.menique
  }

  /** A finger's own joints, as (mcp, pip, tip). */
  function Articulaciones(lm: Landmarks, d: Dedo): (Point, Point, Point) {
    match d
    case Indice => (lm.indiceMcp, lm.indicePip, lm.indiceTip)
    case Medio => (lm.medioMcp, lm.medioPip, lm.medioTip)
    case Anular => (lm.anularMcp, lm.anularPip, lm.anularTip)
    case Menique => (lm.meniqueMcp, lm.meniquePip, lm.meniqueTip)
  }

  /** One finger's state from its joints: bent is asked as (tip, pip, mcp), the angle as (mcp, pip, tip). */
  function EstadoDeDedo(g: Geometria, mcp: Point, pip: Point, tip: Point): EstadoDedo {
    EstadoDedo(g.estaDobladoMejorado(tip, pip, mcp), g.anguloEntrePuntos(mcp, pip, tip))
  }

  /** `_calcular_estado_dedos`: every finger's entry comes from its own (mcp, pip, tip). */
  function CalcularEstadoDedos(g: Geometria, lm: Landmarks): (r: EstadoDedos)
    ensures forall d :: Estado(r, d) == EstadoDeDedo(g, Articulaciones(lm, d).0, Articulaciones(lm, d).1, Articulaciones(lm, d).2)
  {
    EstadoDedos(
      EstadoDeDedo(g, lm.indiceMcp, lm.indicePip, lm.indiceTip),
      EstadoDeDedo(g, lm.medioMcp, lm.medioPip, lm.medioTip),
      EstadoDeDedo(g, lm.anularMcp, lm.anularPip, lm.anularTip),
      EstadoDeDedo(g, lm.meniqueMcp, lm.meniquePip, lm.meniqueTip))
  }

  /**
   * Each finger's state is built from that finger's own joints only: two sets of
   * landmarks that agree on a finger's mcp, pip and tip give it the same state,
   * whatever the other fingers and the thumb do.
   */
  lemma EstadoDedoEsLocal(g: Geometria, lm1: Landmarks, lm2: Landmarks, d: Dedo)
    requires Articulaciones(lm1, d) == Articulaciones(lm2, d)
    ensures Estado(CalcularEstadoDedos(g, lm1), d) == Estado(CalcularEstadoDedos(g, lm2), d)
    ensures var (mcp, pip, tip) := Articulaciones(lm1, d);
      Estado(CalcularEstadoDedos(g, lm1), d) == EstadoDedo(g.estaDobladoMejorado(tip, pip, mcp), g.anguloEntrePuntos(mcp, pip, tip))
  {
  }

  /** `_calcular_distancias`: each of the five entries is `distancia3` of its named pair. */
  function CalcularDistancias(g: Geometria, lm: Landmarks): (r: Distancias)
    ensures r.pulgarIndice == g.distancia3(lm.pulgarTip, lm.indiceTip)
    ensures r.indiceMedio == g.distancia3(lm.indiceTip, lm.medioTip)
    ensures r.medioAnular == g.distancia3(lm.medioTip, lm.anularTip)
    ensures r.anularMenique == g.distancia3(lm.anularTip, lm.meniqueTip)
    ensures r.pulgarMcp == g.distancia3(lm.pulgarTip, lm.indiceMcp)
  {
    Distancias(
      g.distancia3(lm.pulgarTip, lm.indiceTip),
      g.distancia3(lm.indiceTip, lm.medioTip),
      g.distancia3(lm.medioTip, lm.anularTip),
      g.distancia3(lm.anularTip, lm.meniqueTip),
      g.distancia3(lm.pulgarTip, lm.indiceMcp))
  }

  /**
   * The distances read only the five finger tips and the index MCP; in
   * particular `pulgarMcp` measures the thumb tip against the index MCP, and
   * the thumb's own MCP, IP and the wrist play no part.
   */
  lemma DistanciasSoloLeenSusPares(g: Geometria, lm1: Landmarks, lm2: Landmarks)
    requires lm1.pulgarTip == lm2.pulgarTip && lm1.indiceTip == lm2.indiceTip
    requires lm1.medioTip == lm2.medioTip && lm1.anularTip == lm2.anularTip
    requires lm1.meniqueTip == lm2.meniqueTip && lm1.indiceMcp == lm2.indiceMcp
    ensures CalcularDistancias(g, lm1) == CalcularDistancias(g, lm2)
    ensures CalcularDistancias(g, lm1).pulgarMcp == g.distancia3(lm1.pulgarTip, lm1.indiceMcp)
  {
  }

  // ---------------------------------------------------------------------------
  // The vowel predicates
  // ---------------------------------------------------------------------------

  /** `all(estado[d]['doblado'] for d in dedos)` */
  predicate TodosDoblados(e: EstadoDedos, dedos: seq<Dedo>) {
    forall d :: d in dedos ==> Estado(e, d).doblado
  }

  /** `all(estado[d]['angulo'] < limite for d in dedos)` */
  predicate AngulosMenores(e: EstadoDedos, dedos: seq<Dedo>, limite: real) {
    forall d :: d in dedos ==> Estado(e, d).angulo < limite
  }

  lemma CuatroDedos(e: EstadoDedos)
    ensures TodosDoblados(e, [Indice, Medio, Anular, Menique]) <==>
      e.indice.doblado && e.medio.doblado && e.anular.doblado && e.menique.doblado
  {
    var dedos := [Indice, Medio, Anular, Menique];
    assert Indice in dedos && Medio in dedos && Anular in dedos && Menique in dedos;
    if e.indice.doblado && e.medio.doblado && e.anular.doblado && e.menique.doblado {
      forall d | d in dedos ensures Estado(e, d).doblado {
        assert d.Indice? || d.Medio? || d.Anular? || d.Menique?;
      }
    }
  }

  lemma TresDedos(e: EstadoDedos)
    ensures TodosDoblados(e, [Indice, Medio, Anular]) <==>
      e.indice.doblado && e.medio.doblado && e.anular.doblado
  {
    var dedos := [Indice, Medio, Anular];
    assert Indice in dedos && Medio in dedos && Anular in dedos;
    if e.indice.doblado && e.medio.doblado && e.anular.doblado {
      forall d | d in dedos ensures Estado(e, d).doblado {
        var k :| 0 <= k < 3 && dedos[k] == d;
      }
    }
  }

  lemma DosAngulos(e: EstadoDedos, limite: real)
    ensures AngulosMenores(e, [Indice, Medio], limite) <==> e.indice.angulo < limite && e.medio.angulo < limite
  {
    var dedos := [Indice, Medio];
    assert Indice in dedos && Medio in dedos;
    if e.indice.angulo < limite && e.medio.angulo < limite {
      forall d | d in dedos ensures Estado(e, d).angulo < limite {
        var k :| 0 <= k < 2 && dedos[k] == d;
      }
    }
  }

  /** `_es_vocal_a`: closed fist, thumb held away from it. */
  function EsVocalA(th: Umbrales, e: EstadoDedos, dist: Distancias): (r: bool)
    ensures r <==>
      e.indice.doblado && e.medio.doblado && e.anular.doblado && e.menique.doblado &&
      e.indice.angulo < th.doblado && e.medio.angulo < th.doblado &&
      dist.pulgarMcp > th.medio && dist.pulgarIndice > th.cerca
  {
    var todosDoblados := TodosDoblados(e, [Indice, Medio, Anular, Menique]);
    var angulosDoblados := AngulosMenores(e, [Indice, Medio], th.doblado);
    var pulgarSeparado := dist.pulgarMcp > th.medio && dist.pulgarIndice > th.cerca;
    CuatroDedos(e);
    DosAngulos(e, th.doblado);
    todosDoblados && angulosDoblados && pulgarSeparado
  }

  /** `_es_vocal_e`: bent fingers with the thumb touching them. */
  function EsVocalE(th: Umbrales, e: EstadoDedos, dist: Distancias): (r: bool)
    ensures r <==>
      e.indice.doblado && e.medio.doblado && e.anular.doblado && e.menique.doblado &&
      e.indice.angulo < th.doblado && dist.pulgarIndice < th.cerca
  {
    var todosDoblados := TodosDoblados(e, [Indice, Medio, Anular, Menique]);
    var anguloDoblado := e.indice.angulo < th.doblado;
    var pulgarCerca := dist.pulgarIndice < th.cerca;
    CuatroDedos(e);
    todosDoblados && anguloDoblado && pulgarCerca
  }

  /** `_es_vocal_i`: only the pinky extended, and its tip above the middle tip. */
  function EsVocalI(th: Umbrales, e: EstadoDedos, lm: Landmarks): (r: bool)
    ensures r <==>
      e.indice.doblado && e.medio.doblado && e.anular.doblado &&
      !e.menique.doblado && e.menique.angulo > th.extendido &&
      lm.meniqueTip.y < lm.medioTip.y
  {
    var dedosDoblados := TodosDoblados(e, [Indice, Medio, Anular]);
    var meniqueExtendido := !e.menique.doblado && e.menique.angulo > th.extendido;
    var meniqueAlto := lm.meniqueTip.y < lm.medioTip.y;
    TresDedos(e);
    dedosDoblados && meniqueExtendido && meniqueAlto
  }

  /**
   * A and E never hold together, for any thresholds: A needs the thumb-index
   * distance strictly above `cerca`, E strictly below; exactly at `cerca` neither holds.
   */
  lemma AyEExcluyentes(th: Umbrales, e: EstadoDedos, dist: Distancias)
    ensures !(EsVocalA(th, e, dist) && EsVocalE(th, e, dist))
    ensures dist.pulgarIndice == th.cerca ==> !EsVocalA(th, e, dist) && !EsVocalE(th, e, dist)
  {
  }

  /** I excludes A and E: both of them need the pinky bent, I needs it not bent. */
  lemma IExcluyeAyE(th: Umbrales, e: EstadoDedos, dist: Distancias, lm: Landmarks)
    ensures EsVocalI(th, e, lm) ==> !EsVocalA(th, e, dist) && !EsVocalE(th, e, dist)
  {
  }

  // ---------------------------------------------------------------------------
  // Classification
  // ---------------------------------------------------------------------------

  /**
   * Reference reading of a priority list of (label, verdict) pairs: the label of
   * the first pair whose verdict holds, or none when no verdict holds.
   */
  function PrimeraCoincidencia(candidatos: seq<(Vocal, bool)>): (r: Option<Vocal>)
    ensures r.None? <==> forall k :: 0 <= k < |candidatos| ==> !candidatos[k].1
    ensures r.Some? ==> exists k :: 0 <= k < |candidatos| && candidatos[k] == (r.value, true) &&
                                   forall j :: 0 <= j < k ==> !candidatos[j].1
  {
    if candidatos == [] then None
    else if candidatos[0].1 then Some(candidatos[0].0)
    else
      var r := PrimeraCoincidencia(candidatos[1..]);
      assert forall k :: 1 <= k < |candidatos| ==> candidatos[k] == candidatos[1..][k - 1];
      r
  }

  /** The five checks in the order `detectar_vocal` tries them. */
  function Candidatos(d: Detector, e: EstadoDedos, dist: Distancias, lm: Landmarks): seq<(Vocal, bool)> {
    [(A, EsVocalA(d.umbrales, e, dist)),
     (E, EsVocalE(d.umbrales, e, dist)),
     (I, EsVocalI(d.umbrales, e, lm)),
     (O, d.esVocalO(e, dist, lm)),
     (U, d.esVocalU(e, dist, lm))]
  }

  /**
   * The dispatch of `detectar_vocal` once the features are built: the first
   * predicate that holds, in the order A, E, I, O, U, names the vowel.
   */
  function Despachar(d: Detector, e: EstadoDedos, dist: Distancias, lm: Landmarks): (r: Option<Vocal>)
    ensures var a, ee, i := EsVocalA(d.umbrales, e, dist), EsVocalE(d.umbrales, e, dist), EsVocalI(d.umbrales, e, lm);
      var o, u := d.esVocalO(e, dist, lm), d.esVocalU(e, dist, lm);
      && (r == Some(A) <==> a)
      && (r == Some(E) <==> !a && ee)
      && (r == Some(I) <==> !a && !ee && i)
      && (r == Some(O) <==> !a && !ee && !i && o)
      && (r == Some(U) <==> !a && !ee && !i && !o && u)
      && (r == None <==> !a && !ee && !i && !o && !u)
  {
    if EsVocalA(d.umbrales, e, dist) then Some(A)
    else if EsVocalE(d.umbrales, e, dist) then Some(E)
    else if EsVocalI(d.umbrales, e, lm) then Some(I)
    else if d.esVocalO(e, dist, lm) then Some(O)
    else if d.esVocalU(e, dist, lm) then Some(U)
    else None
  }

  /** The dispatch is the first match of the ordered (label, predicate) list. */
  lemma DespacharEsPrimeraCoincidencia(d: Detector, e: EstadoDedos, dist: Distancias, lm: Landmarks)
    ensures Despachar(d, e, dist, lm) == PrimeraCoincidencia(Candidatos(d, e, dist, lm))
  {
    var c := Candidatos(d, e, dist, lm);
    assert c[1..][1..][1..][1..][1..] == [];
    var r4 := PrimeraCoincidencia(c[1..][1..][1..][1..]);
    var r3 := PrimeraCoincidencia(c[1..][1..][1..]);
    var r2 := PrimeraCoincidencia(c[1..][1..]);
    var r1 := PrimeraCoincidencia(c[1..]);
    assert r4 == if c[4].1 then Some(U) else None;
    assert r3 == if c[3].1 then Some(O) else r4;
    assert r2 == if c[2].1 then Some(I) else r3;
    assert r1 == if c[1].1 then Some(E) else r2;
  }

  /** Feature building followed by the dispatch, for one set of named landmarks. */
  function ClasificarLandmarks(d: Detector, lm: Landmarks): Option<Vocal> {
    Despachar(d, CalcularEstadoDedos(d.geometria, lm), CalcularDistancias(d.geometria, lm), lm)
  }

  /**
   * `detectar_vocal`: extraction, feature building and dispatch. It fails exactly
   * when a named position lies past the end of the list; otherwise the label is
   * the first match over the features of the extracted landmarks. The hand label
   * is accepted and never read.
   */
  function DetectarVocal(d: Detector, lm: seq<Point>, manoLabel: Option<string>): (r: Result<Option<Vocal>, ErrorDeteccion>)
    ensures r.Err? <==> exists k :: 0 <= k < 16 && Indices(d.indices)[k] >= |lm|
    ensures r.Ok? ==> exists puntos :: (ExtraerLandmarks(lm, d.indices) == Ok(puntos) &&
      r.value == PrimeraCoincidencia(Candidatos(d, CalcularEstadoDedos(d.geometria, puntos),
                                                CalcularDistancias(d.geometria, puntos), puntos)))
  {
    match ExtraerLandmarks(lm, d.indices)
    case Err(err) => Err(err)
    case Ok(puntos) =>
      DespacharEsPrimeraCoincidencia(d, CalcularEstadoDedos(d.geometria, puntos),
                                     CalcularDistancias(d.geometria, puntos), puntos);
      Ok(ClasificarLandmarks(d, puntos))
  }

  /** The label passed with the landmarks never changes the result. */
  lemma DetectarVocalIgnoraEtiqueta(d: Detector, lm: seq<Point>, l1: Option<string>, l2: Option<string>)
    ensures DetectarVocal(d, lm, l1) == DetectarVocal(d, lm, l2)
  {
  }

  // ---------------------------------------------------------------------------
  // Worked cases with the configured thresholds
  // ---------------------------------------------------------------------------

  /** A fist bent at 90 degrees, thumb 0.15 from the index MCP and 0.10 from the index tip, is an A. */
  lemma PunoConPulgarSeparadoEsA(d: Detector, dist: Distancias, lm: Landmarks)
    requires d.umbrales == PREDETERMINADOS
    requires dist.pulgarMcp == 0.15 && dist.pulgarIndice == 0.10
    ensures var doblado := EstadoDedo(true, 90.0);
      Despachar(d, EstadoDedos(doblado, doblado, doblado, doblado), dist, lm) == Some(A)
  {
  }

  /** The same fist with the thumb 0.03 from the index tip is an E. */
  lemma PunoConPulgarCercaEsE(d: Detector, dist: Distancias, lm: Landmarks)
    requires d.umbrales == PREDETERMINADOS
    requires dist.pulgarMcp == 0.15 && dist.pulgarIndice == 0.03
    ensures var doblado := EstadoDedo(true, 90.0);
      Despachar(d, EstadoDedos(doblado, doblado, doblado, doblado), dist, lm) == Some(E)
  {
  }

  /** Index, middle and ring bent, pinky straight at 170 degrees and above the middle tip, is an I. */
  lemma MeniqueArribaEsI(d: Detector, dist: Distancias, lm: Landmarks)
    requires d.umbrales == PREDETERMINADOS
    requires lm.meniqueTip.y == 0.30 && lm.medioTip.y == 0.50
    ensures var doblado := EstadoDedo(true, 90.0);
      Despachar(d, EstadoDedos(doblado, doblado, doblado, EstadoDedo(false, 170.0)), dist, lm) == Some(I)
  {
  }
}
