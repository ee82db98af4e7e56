/** Labels, index types and small helpers shared by the formulation and the runner. */
module Common {

  /** A carrier, converter or supply-type name, as spelled in the input tables. */
  type Label = string
  /** An opaque node identifier such as "Node_1". */
  type Location = string
  /** A period label such as 2018; its value is used both for ordering and as an exponent. */
  type Period = int
  /** An ordered location pair (from, to). */
  type Pair = (Location, Location)

  const Electricity: Label := "Electricity"
  const Gas: Label := "Gas"
  const Heat: Label := "Heat"

  const CHP: Label := "CHP"
  const HP: Label := "HP"
  const P2G: Label := "P2G"

  const Solar: Label := "Solar"
  const Wind: Label := "Wind"

  datatype Option<+T> = None | Some(value: T)

  datatype Result<+T, +E> = Success(value: T) | Failure(error: E)

  /** Reads a real-valued table; an absent entry reads as 0. */
  function Get<K>(m: map<K, real>, k: K): real
  {
    if k in m then m[k] else 0.0
  }

  /** Reads a nat-valued table; an absent entry reads as 0. */
  function GetNat<K>(m: map<K, nat>, k: K): nat
  {
    if k in m then m[k] else 0
  }

  /** No label occurs twice. */
  predicate Distinct<T(==)>(xs: seq<T>)
  {
    forall i, j :: 0 <= i < j < |xs| ==> xs[i] != xs[j]
  }
}
