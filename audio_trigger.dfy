/**
 * The audio edge-trigger policy of `GestureRecognitionApp`: per hand, remember
 * the last letter played, play a confirmed letter only when it differs from that
 * one, and forget it (clearing the hand's confirmation buffer) once the hand
 * shows no gesture at all.
 */
module AudioTrigger {
  import opened Wrappers
  import opened GestureDetector

  /** What one call asks of the collaborators. */
  datatype Accion =
    | Reproducir(letra: Vocal)   // audio_manager.reproducir(letra)
    | Reiniciar                  // record None and gesture_detector.limpiar_buffer(i_mano)
    | Nada

  /** `ultimo_tiempo_gesto`, without the timestamps: hand index to last recorded letter. */
  type Registro = map<int, Option<Vocal>>

  /** The last letter recorded for a hand; a hand never seen counts as None. */
  function UltimaLetra(m: Registro, mano: int): Option<Vocal> {
    if mano in m then m[mano] else None
  }

  /**
   * The decision of `_manejar_audio`, given the hand's last letter and this
   * frame's detected and confirmed labels.
   */
  function Decidir(ultima: Option<Vocal>, detectado: Option<Vocal>, confirmado: Option<Vocal>): (a: Accion)
    ensures a.Reproducir? <==> confirmado.Some? && ultima != confirmado
    ensures a.Reproducir? ==> confirmado == Some(a.letra)
    ensures a == Reiniciar <==> confirmado.None? && detectado.None? && ultima.Some?
    ensures a == Nada <==>
      || (confirmado.Some? && ultima == confirmado)
      || (confirmado.None? && detectado.Some?)
      || (confirmado.None? && detectado.None? && ultima.None?)
  {
    if confirmado.Some? then
      if ultima != confirmado then Reproducir(confirmado.value) else Nada
    else if ultima.Some? && detectado.None? then Reiniciar
    else Nada
  }

  /** The entry an action writes: a play records its letter, a reset records None. */
  function Registrar(m: Registro, mano: int, a: Accion): (m': Registro)
    ensures a.Reproducir? ==> UltimaLetra(m', mano) == Some(a.letra)
    ensures a == Reiniciar ==> mano in m' && m'[mano] == None
    ensures a == Nada ==> m' == m
    ensures forall otra :: otra != mano ==> (otra in m' <==> otra in m) && (otra in m ==> m'[otra] == m[otra])
    ensures m'.Keys <= m.Keys + {mano}
  {
    match a
    case Reproducir(v) => m[mano := Some(v)]
    case Reiniciar => m[mano := None]
    case Nada => m
  }

  class GestureRecognitionApp {
    var ultimoGesto: Registro

    constructor ()
      ensures ultimoGesto == map[]
    {
      ultimoGesto := map[];
    }

    /**
     * `_manejar_audio`: returns what to do with the collaborators and updates
     * only the entry of `iMano`.
     */
    method ManejarAudio(iMano: int, gestoDetectado: Option<Vocal>, gestoConfirmado: Option<Vocal>)
      returns (accion: Accion)
      modifies this
      ensures accion == Decidir(UltimaLetra(old(ultimoGesto), iMano), gestoDetectado, gestoConfirmado)
      ensures ultimoGesto == Registrar(old(ultimoGesto), iMano, accion)
    {
      var ultimaLetra: Option<Vocal>;
      if iMano in ultimoGesto {
        ultimaLetra := ultimoGesto[iMano];
      } else {
        ultimaLetra := None;
      }
      accion := Nada;
      if gestoConfirmado.Some? {
        if ultimaLetra != gestoConfirmado {
          accion := Reproducir(gestoConfirmado.value);
          ultimoGesto := ultimoGesto[iMano := gestoConfirmado];
        }
      } else {
        if ultimaLetra.Some? && gestoDetectado.None? {
          ultimoGesto := ultimoGesto[iMano := None];
          accion := Reiniciar;
        }
      }
    }
  }

  // ---------------------------------------------------------------------------
  // Properties of the policy over several calls
  // ---------------------------------------------------------------------------

  /** One call's input: the hand index and that hand's detected and confirmed labels. */
  datatype Cuadro = Cuadro(mano: int, detectado: Option<Vocal>, confirmado: Option<Vocal>)

  function Paso(m: Registro, c: Cuadro): Registro {
    Registrar(m, c.mano, Decidir(UltimaLetra(m, c.mano), c.detectado, c.confirmado))
  }

  /** The record after a sequence of calls. */
  function RegistroTras(m: Registro, cuadros: seq<Cuadro>): Registro
    decreases |cuadros|
  {
    if cuadros == [] then m
    else Paso(RegistroTras(m, cuadros[..|cuadros| - 1]), cuadros[|cuadros| - 1])
  }

  /** The actions of a sequence of calls, one per call. */
  function AccionesTras(m: Registro, cuadros: seq<Cuadro>): (r: seq<Accion>)
    ensures |r| == |cuadros|
    decreases |cuadros|
  {
    if cuadros == [] then []
    else
      var previo := cuadros[..|cuadros| - 1];
      var c := cuadros[|cuadros| - 1];
      AccionesTras(m, previo) + [Decidir(UltimaLetra(RegistroTras(m, previo), c.mano), c.detectado, c.confirmado)]
  }

  /**
   * Reference reading of the record: the letter of the last play or reset that
   * was issued for `mano`, or `inicial` when there was none.
   */
  function UltimoEvento(inicial: Option<Vocal>, mano: int, cuadros: seq<Cuadro>, acciones: seq<Accion>): Option<Vocal>
    requires |cuadros| == |acciones|
    decreases |cuadros|
  {
    if cuadros == [] then inicial
    else
      var n := |cuadros| - 1;
      if cuadros[n].mano == mano && acciones[n] != Nada then
        (if acciones[n].Reproducir? then Some(acciones[n].letra) else None)
      else UltimoEvento(inicial, mano, cuadros[..n], acciones[..n])
  }

  /** The actions of a prefix of the calls are the prefix of the actions. */
  lemma {:induction false} AccionesDePrefijo(m: Registro, cuadros: seq<Cuadro>, k: nat)
    requires k <= |cuadros|
    ensures AccionesTras(m, cuadros[..k]) == AccionesTras(m, cuadros)[..k]
    decreases |cuadros|
  {
    if k < |cuadros| {
      var previo := cuadros[..|cuadros| - 1];
      assert previo[..k] == cuadros[..k];
      AccionesDePrefijo(m, previo, k);
    } else {
      assert cuadros[..k] == cuadros;
    }
  }

  /**
   * The record keeps, for every hand, exactly the outcome of the last play or
   * reset issued for that hand: calls for other hands and calls that did
   * nothing leave it as it was.
   */
  lemma {:induction false} RegistroEsUltimoEvento(m: Registro, cuadros: seq<Cuadro>, mano: int)
    ensures UltimaLetra(RegistroTras(m, cuadros), mano) ==
            UltimoEvento(UltimaLetra(m, mano), mano, cuadros, AccionesTras(m, cuadros))
    decreases |cuadros|
  {
    if cuadros != [] {
      var n := |cuadros| - 1;
      var previo := cuadros[..n];
      var acciones := AccionesTras(m, cuadros);
      assert acciones[..n] == AccionesTras(m, previo);
      RegistroEsUltimoEvento(m, previo, mano);
    }
  }

  /**
   * No letter is played twice in a row for a hand: whenever a call plays `v`,
   * the last play or reset issued before it for that hand was not a play of `v`.
   */
  lemma {:induction false} SinRepeticion(m: Registro, cuadros: seq<Cuadro>, k: nat)
    requires k < |cuadros|
    requires AccionesTras(m, cuadros)[k].Reproducir?
    ensures var mano := cuadros[k].mano;
      UltimoEvento(UltimaLetra(m, mano), mano, cuadros[..k], AccionesTras(m, cuadros)[..k])
        != Some(AccionesTras(m, cuadros)[k].letra)
  {
    var mano := cuadros[k].mano;
    var acciones := AccionesTras(m, cuadros);
    AccionesDePrefijo(m, cuadros, k + 1);
    AccionesDePrefijo(m, cuadros, k);
    var hasta := cuadros[..k + 1];
    assert hasta[..k] == cuadros[..k];
    assert acciones[k] == AccionesTras(m, hasta)[k];
    assert acciones[k] == Decidir(UltimaLetra(RegistroTras(m, cuadros[..k]), mano), cuadros[k].detectado, cuadros[k].confirmado);
    RegistroEsUltimoEvento(m, cuadros[..k], mano);
  }

  /** Confirming the same letter again for a hand does nothing, whatever was detected. */
  lemma RepetirNoReproduce(m: Registro, mano: int, detectado1: Option<Vocal>, detectado2: Option<Vocal>, v: Vocal)
    ensures var m1 := Paso(m, Cuadro(mano, detectado1, Some(v)));
      Decidir(UltimaLetra(m1, mano), detectado2, Some(v)) == Nada && Paso(m1, Cuadro(mano, detectado2, Some(v))) == m1
  {
  }

  /**
   * The default taken for a hand never seen behaves as a recorded None: no
   * decision can tell a missing entry from an entry holding None.
   */
  lemma ManoAusenteEquivaleANone(m: Registro, mano: int)
    requires mano !in m
    ensures forall detectado, confirmado ::
      Decidir(UltimaLetra(m, mano), detectado, confirmado) == Decidir(UltimaLetra(m[mano := None], mano), detectado, confirmado)
  {
  }

  /** A hand never seen before plays its first confirmed letter. */
  lemma ManoNuevaReproduce(m: Registro, mano: int, detectado: Option<Vocal>, v: Vocal)
    requires mano !in m
    ensures Decidir(UltimaLetra(m, mano), detectado, Some(v)) == Reproducir(v)
  {
  }

  /** After a reset, the next confirmed letter plays, even the one played before the reset. */
  lemma TrasReinicioReproduce(m: Registro, mano: int, detectado: Option<Vocal>, v: Vocal)
    requires Decidir(UltimaLetra(m, mano), None, None) == Reiniciar
    ensures var m1 := Paso(m, Cuadro(mano, None, None));
      Decidir(UltimaLetra(m1, mano), detectado, Some(v)) == Reproducir(v)
  {
  }
}
