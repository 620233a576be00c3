/**
  JavaScript numbers as far as the application looks at them. Coordinates are
  never computed with: they are only tested for truthiness, for NaN and against 0.
  Signed zero is not represented, since `-0 === 0` and both are falsy.
 */
module Coordinates {

  datatype Num = NaN | Infinity(negative: bool) | Finite(value: real)

  const Zero: Num := Finite(0.0)

  /** `Number.isNaN` / the global `isNaN` applied to a number. */
  predicate IsNaN(n: Num) { n.NaN? }

  /** `n === 0` (and `n !== 0` is its negation; NaN differs from 0). */
  predicate IsZero(n: Num) { n == Zero }

  /** Truthiness of a number in a JavaScript condition: false exactly for 0 and NaN. */
  predicate Truthy(n: Num) { !IsNaN(n) && !IsZero(n) }

  /** A `[lat, lng]` pair: a geocoder result, a map click, a marker position. */
  datatype LatLng = LatLng(lat: Num, lng: Num)
}
