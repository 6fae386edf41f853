/**
 * Points as the hand tracker delivers them, and the geometry helpers the
 * classifier calls. The helpers' bodies are not part of this model: a
 * `Geometria` value carries them as functions, and nothing is assumed of them.
 */
module Geometry {

  /** A landmark in normalized image coordinates; y grows downwards. */
  datatype Point = Point(x: real, y: real, z: real)

  datatype Geometria = Geometria(
    /** distancia3(a, b): the 3D distance between two points */
    distancia3: (Point, Point) -> real,
    /** angulo_entre_puntos(a, b, c): the angle in degrees at vertex b */
    anguloEntrePuntos: (Point, Point, Point) -> real,
    /** esta_doblado_mejorado(tip, pip, mcp): whether a finger is bent */
    estaDobladoMejorado: (Point, Point, Point) -> bool)
}
