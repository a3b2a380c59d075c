/** Small shared vocabulary: optional values (a pandas NaN or a missing dict key)
    and the extended reals the strategies use for +inf / -inf stops. */
module Wrappers {

  datatype Option<+T> = None | Some(value: T) {
    function GetOr(default: T): T {
      match this
      case Some(v) => v
      case None => default
    }
  }

  /** A float that may be -inf or +inf (numpy's np.inf), totally ordered. */
  datatype ExtReal = NegInf | Finite(v: real) | PosInf

  predicate Less(a: ExtReal, b: ExtReal) {
    match (a, b)
    case (NegInf, NegInf) => false
    case (NegInf, _) => true
    case (Finite(x), Finite(y)) => x < y
    case (Finite(_), PosInf) => true
    case (_, _) => false
  }

  predicate LessEq(a: ExtReal, b: ExtReal) {
    a == b || Less(a, b)
  }

  lemma LessEqTransitive(a: ExtReal, b: ExtReal, c: ExtReal)
    requires LessEq(a, b) && LessEq(b, c)
    ensures LessEq(a, c)
  {
  }

  /** Python's max(a, b): returns a unless b is strictly larger. */
  function Max(a: ExtReal, b: ExtReal): (r: ExtReal)
    ensures LessEq(a, r) && LessEq(b, r)
    ensures r == a || r == b
  {
    if Less(a, b) then b else a
  }

  /** Python's min(a, b): returns a unless b is strictly smaller. */
  function Min(a: ExtReal, b: ExtReal): (r: ExtReal)
    ensures LessEq(r, a) && LessEq(r, b)
    ensures r == a || r == b
  {
    if Less(b, a) then b else a
  }

  function Abs(x: real): (r: real)
    ensures r >= 0.0 && (r == x || r == -x)
  {
    if x < 0.0 then -x else x
  }

  /** Comparisons against a value that may be NaN: every comparison with NaN is false. */
  predicate GtOpt(x: real, y: Option<real>) { y.Some? && x > y.value }
  predicate LtOpt(x: real, y: Option<real>) { y.Some? && x < y.value }
  predicate GeOpt(x: real, y: Option<real>) { y.Some? && x >= y.value }
  predicate LeOpt(x: real, y: Option<real>) { y.Some? && x <= y.value }

  predicate Distinct<T(==)>(s: seq<T>) {
    forall i, j :: 0 <= i < j < |s| ==> s[i] != s[j]
  }

  /** The sequence with every occurrence of x removed (deleting a dict key while keeping the order of the rest). */
  function Remove(s: seq<string>, x: string): (r: seq<string>)
    ensures forall y :: y in r <==> y in s && y != x
    ensures Distinct(s) ==> Distinct(r)
    ensures |r| <= |s|
  {
    if s == [] then []
    else if s[0] == x then Remove(s[1..], x)
    else
      var t := Remove(s[1..], x);
      assert Distinct(s) ==> Distinct([s[0]] + t) by {
        if Distinct(s) {
          forall i, j | 0 <= i < j < |[s[0]] + t| ensures ([s[0]] + t)[i] != ([s[0]] + t)[j] {
            if i == 0 { assert ([s[0]] + t)[j] == t[j - 1]; assert t[j - 1] in t; }
          }
        }
      }
      [s[0]] + t
  }
}
