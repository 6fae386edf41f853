# Vowel hand-shape classifier and audio trigger

This project models the decision logic of a fingerspelling recognizer that
turns one frame's hand landmarks into one of the vowels A, E, I, O, U (or no
vowel), and the per-hand policy that decides when a confirmed vowel is played.

- `wrappers.dfy` (`Wrappers`): `Option` for Python's `None`, `Result` for a raised error.
- `config.dfy` (`Config`): the thresholds of `config.py` (`cerca` 0.08, `medio` 0.12,
  `doblado` 140, `extendido` 160, the O/U tolerances, three confirmation frames) and the
  `Umbrales` record the classifier reads.
- `geometry.dfy` (`Geometry`): `Point`, and `Geometria`, a record of the three geometry
  helpers the classifier calls (`distancia3`, `angulo_entre_puntos`,
  `esta_doblado_mejorado`). Their bodies are not part of this model, so they are
  parameters and nothing is assumed about them.
- `gesture_detector.dfy` (`GestureDetector`): landmark extraction, the finger-state and
  distance features, the A, E and I predicates and the first-match-wins dispatch of
  `GestureDetector.detectar_vocal`. A `Detector` value carries everything the detector
  reads: the geometry helpers, the thresholds, the landmark positions of the tracking
  library's `HandLandmark` enumeration, and the O and U predicates (called by the
  detector but not part of this model). Classification is a pure function of that
  value and the frame, so classifying the same landmarks twice gives the same label,
  and the result type admits only A, E, I, O, U or none.
- `audio_trigger.dfy` (`AudioTrigger`): `GestureRecognitionApp._manejar_audio` as a class
  with the `ultimo_tiempo_gesto` map as a field, and a method that updates it and returns
  the action for the collaborators (`Reproducir(v)` for `audio_manager.reproducir`,
  `Reiniciar` for recording None and calling `gesture_detector.limpiar_buffer` once,
  `Nada`). Functions over a sequence of calls state what the map means over time.

In `Gesture_detector.py` the methods `detectar_vocal` and `_extraer_landmarks` are laid
out inside `__init__` (lines 26-94) rather than as methods of the class; the model takes
them as the methods `main.py` calls. The landmark extraction indexes the list: it fails
only when a named position is past the end of the list, and accepts lists of any greater
length; the model follows the code here, not a rule that the list must have exactly 21
points. The hand label passed to `detectar_vocal` is never read.

## Model

| member | source | states |
|---|---|---|
| GestureDetector.ExtraerLandmarks | Gesture_detector.py:64-94 | fails exactly when some named position is outside the list; otherwise the k-th named point is the list element at the k-th name's position |
| GestureDetector.CalcularEstadoDedos | Gesture_detector.py:96-117 | every finger's entry is its bent flag, asked with (tip, pip, mcp), and its angle, asked with (mcp, pip, tip), of that finger's own joints |
| GestureDetector.CalcularDistancias | Gesture_detector.py:119-127 | exactly five distances: thumb tip to index tip, index tip to middle tip, middle tip to ring tip, ring tip to pinky tip, and thumb tip to index MCP |
| GestureDetector.ExtraerSoloLeeIndices | Gesture_detector.py:64-94 | two lists that agree at the sixteen named positions give the same named landmarks |
| GestureDetector.EstadoDedoEsLocal | Gesture_detector.py:96-117 | each finger's state depends only on that finger's mcp, pip and tip; bent is asked with (tip, pip, mcp), the angle with (mcp, pip, tip) |
| GestureDetector.DistanciasSoloLeenSusPares | Gesture_detector.py:119-127 | the five distances depend only on the five tips and the index MCP; `pulgarMcp` is thumb tip to index MCP |
| GestureDetector.EsVocalA | Gesture_detector.py:129-137 | A holds iff all four fingers are bent, index and middle angles are below `doblado`, thumb-index-MCP distance is above `medio` and thumb-index distance above `cerca` |
| GestureDetector.EsVocalE | Gesture_detector.py:139-145 | E holds iff all four fingers are bent, the index angle is below `doblado` and the thumb-index distance is below `cerca` |
| GestureDetector.EsVocalI | Gesture_detector.py:147-156 | I holds iff index, middle and ring are bent, the pinky is not bent with angle above `extendido`, and the pinky tip is strictly higher (smaller y) than the middle tip |
| GestureDetector.AyEExcluyentes | Gesture_detector.py:134-143 | for any thresholds A and E never both hold; at thumb-index distance equal to `cerca` neither holds |
| GestureDetector.IExcluyeAyE | Gesture_detector.py:129-156 | I excludes A and E, which both need the pinky bent |
| GestureDetector.PrimeraCoincidencia | Gesture_detector.py:46-62 | reference priority list: none exactly when no verdict holds; otherwise the label of a true pair with every earlier verdict false |
| GestureDetector.Despachar | Gesture_detector.py:46-62 | first match wins: A iff the A predicate holds; E iff A fails and E holds; I, O, U likewise after all earlier ones fail; none iff all five fail |
| GestureDetector.DespacharEsPrimeraCoincidencia | Gesture_detector.py:46-62 | the dispatch equals the first match of the ordered list (A, E, I, O, U) |
| GestureDetector.DetectarVocal | Gesture_detector.py:26-62 | fails exactly when a named position is outside the list; otherwise the label is the first match over the features of the extracted landmarks |
| GestureDetector.DetectarVocalIgnoraEtiqueta | Gesture_detector.py:26-62 | the hand label never changes the result |
| GestureDetector.PunoConPulgarSeparadoEsA | Gesture_detector.py:129-137 | with the configured thresholds, a 90-degree fist with thumb 0.15 from the index MCP and 0.10 from the index tip is A |
| GestureDetector.PunoConPulgarCercaEsE | Gesture_detector.py:139-145 | the same fist with the thumb 0.03 from the index tip is E |
| GestureDetector.MeniqueArribaEsI | Gesture_detector.py:147-156 | index, middle, ring bent and the pinky straight at 170 degrees above the middle tip is I |
| AudioTrigger.ManoAusenteEquivaleANone | main.py:93-96 | the `None` default taken for a hand missing from the map leads to the same decision as a recorded None, for every detected and confirmed label |
| AudioTrigger.Decidir | main.py:98-107 | play iff confirmed is a letter different from the last one, and then it plays the confirmed letter; reset iff confirmed and detected are None and the last letter is not; nothing in exactly the three remaining cases |
| AudioTrigger.Registrar | main.py:102-106 | a play records its letter, a reset records None for the hand, doing nothing keeps the map; every other hand keeps its key presence and its entry |
| AudioTrigger.GestureRecognitionApp.constructor | main.py:33 | the map starts empty |
| AudioTrigger.GestureRecognitionApp.ManejarAudio | main.py:89-107 | returns the decision for the hand's last letter and writes only that hand's entry, as `Registrar` says |
| AudioTrigger.RegistroEsUltimoEvento | main.py:99-107 | after any sequence of calls, a hand's recorded letter is the outcome of the last play or reset issued for it, or its initial letter |
| AudioTrigger.SinRepeticion | main.py:99-102 | a call never plays the letter whose play was the hand's last play-or-reset event |
| AudioTrigger.RepetirNoReproduce | main.py:100-102 | confirming the same letter again right after does nothing and leaves the map as it was |
| AudioTrigger.ManoNuevaReproduce | main.py:93-96 | a hand not yet in the map plays its first confirmed letter |
| AudioTrigger.TrasReinicioReproduce | main.py:104-107 | after a reset, the next confirmed letter plays, even the one played before |

## Left out

- Geometry helpers `distancia3`, `angulo_entre_puntos`, `esta_doblado_mejorado`: their bodies are not part of this model (geometryutils.py shows only the floating-point `distancia2`); they are parameters with no assumed properties.
- `_es_vocal_o`, `_es_vocal_u`: called but not part of this model; they are parameters of the detector.
- `confirmar_gesto` and `limpiar_buffer` (the confirmation buffer): not part of this model; `limpiar_buffer` appears only as the `Reiniciar` action, and the confirmation window is kept as the constant `FRAMES_CONFIRMACION`.
- The numeric values of the tracking library's `HandLandmark` enumeration: a parameter record of sixteen positions.
- The timestamp `ahora` stored beside each letter: never read by any decision.
- Audio loading and playback, the console message, camera, drawing, bounding box and FPS: I/O with no decision logic; playback is the `Reproducir` action.
- Floating-point rounding: all coordinates, distances and angles are exact reals.
