/** Field values of the Frappe documents that the Python code compares. */
module Values {
  /** Checks are stored as integers. */
  datatype Value = Null | Int(n: int) | Real(r: real) | Str(s: string)

  /** `==` between two Python values. */
  predicate PyEqual(a: Value, b: Value) {
    match (a, b)
    case (Int(m), Real(r)) => m as real == r
    case (Real(r), Int(m)) => m as real == r
    case _ => a == b
  }

  /** Numbers are equal as numbers, whatever their type; everything else only to itself. */
  lemma PyEqualMeans(a: Value, b: Value, m: int, r: real, s: string)
    ensures PyEqual(a, b) <==> a == b || (a.Int? && b.Real? && a.n as real == b.r) || (a.Real? && b.Int? && b.n as real == a.r)
    ensures PyEqual(Int(m), Real(r)) <==> m as real == r
    ensures !PyEqual(Int(m), Str(s)) && !PyEqual(Real(r), Str(s)) && !PyEqual(Null, Int(m)) && !PyEqual(Null, Str(s))
  {
  }

  predicate Falsy(v: Value) {
    v == Null || v == Int(0) || v == Real(0.0) || v == Str("")
  }

  /** `v or ""`. */
  function OrEmpty(v: Value): (w: Value) {
    if Falsy(v) then Str("") else v
  }

  /** `values.get(field)`. */
  function Get(values: map<string, Value>, field: string): (v: Value) {
    if field in values then values[field] else Null
  }
}
