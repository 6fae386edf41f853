/**
 * The detection thresholds of config.py: distances in normalized image units,
 * angles in degrees, and the confirmation window in frames.
 */
module Config {

  // DISTANCE_THRESHOLDS
  const MUY_CERCA: real := 0.04
  const CERCA: real := 0.08
  const MEDIO: real := 0.12
  const LEJOS: real := 0.18

  // ANGLE_THRESHOLDS: below DOBLADO a finger counts as bent, above EXTENDIDO as extended
  const DOBLADO: real := 140.0
  const EXTENDIDO: real := 160.0

  // GESTURE_TOLERANCES (consumed only by the O and U predicates)
  const VARIACION_ALTURA_MAX_O: real := 0.08
  const DIFERENCIA_ALTURA_MAX_U: real := 0.05

  // DETECTION_CONFIG
  const FRAMES_CONFIRMACION: nat := 3

  /** The thresholds the classifier reads from `self.th` and `self.ang`. */
  datatype Umbrales = Umbrales(cerca: real, medio: real, doblado: real, extendido: real)

  /** The thresholds a detector loads at construction. */
  const PREDETERMINADOS: Umbrales := Umbrales(CERCA, MEDIO, DOBLADO, EXTENDIDO)
}
