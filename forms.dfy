/**
 * How the page forms read their text boxes. A box holds a string; the validators only ever ask
 * whether it is empty (`!x`), whether `isNaN(x)` holds and what `parseInt` makes of it, so a box
 * is modelled by the answers to those questions.
 */
module Forms {

  /**
   * The content of a number box: `Blank` is '', `Numeric(n)` a string that reads as the integer
   * `n` (truthy even for "0"), `NonNumeric` a non-empty string for which `isNaN` holds and
   * `parseInt` gives NaN.
   */
  datatype Input = Blank | Numeric(n: int) | NonNumeric

  /** A JavaScript number that may be NaN. */
  datatype JsNum = NaN | Int(v: int)

  /** `parseInt(x)`; note that `parseInt('')` is NaN. */
  function ParseInt(x: Input): (r: JsNum)
    ensures r.Int? <==> x.Numeric?
    ensures x.Numeric? ==> r == Int(x.n)
  {
    match x
    case Numeric(n) => Int(n)
    case _ => NaN
  }

  /** `parseInt(x || 0)`: an empty box reads as 0. */
  function ParseIntOrZeroBox(x: Input): (r: JsNum)
    ensures x.Blank? ==> r == Int(0)
    ensures !x.Blank? ==> r == ParseInt(x)
  {
    if x.Blank? then Int(0) else ParseInt(x)
  }

  /** `parseInt(x) || 0`: NaN and 0 both become 0. */
  function ParseIntOr0(x: Input): (n: int)
    ensures x.Numeric? ==> n == x.n
    ensures !x.Numeric? ==> n == 0
  {
    match x
    case Numeric(k) => k
    case _ => 0
  }

  /** `a + b` on numbers: NaN is absorbing. */
  function Plus(a: JsNum, b: JsNum): JsNum
  {
    if a.Int? && b.Int? then Int(a.v + b.v) else NaN
  }

  /** `a > n`: false whenever `a` is NaN. */
  predicate GreaterThan(a: JsNum, n: int)
  {
    a.Int? && a.v > n
  }

  /** `a < n`: false whenever `a` is NaN. */
  predicate LessThan(a: JsNum, n: int)
  {
    a.Int? && a.v < n
  }

  /** `a <= n`: false whenever `a` is NaN. */
  predicate AtMost(a: JsNum, n: int)
  {
    a.Int? && a.v <= n
  }

  /** `a >= n`: false whenever `a` is NaN. */
  predicate AtLeast(a: JsNum, n: int)
  {
    a.Int? && a.v >= n
  }

  /** `a !== b` on numbers: NaN differs from everything, itself included. */
  predicate StrictlyDifferent(a: JsNum, b: JsNum)
  {
    !(a.Int? && b.Int? && a.v == b.v)
  }

  /**
   * `if (formErrors[field]) setFormErrors(prev => ({ ...prev, [field]: '' }))`: a non-empty
   * message for `field` is blanked; the key stays, every other entry is kept.
   */
  function ClearError<F>(errors: map<F, string>, field: F): (r: map<F, string>)
    ensures r.Keys == errors.Keys
    ensures field in errors ==> r[field] == ""
    ensures forall g :: g in errors && g != field ==> r[g] == errors[g]
  {
    if field in errors && errors[field] != "" then errors[field := ""] else errors
  }

  /** Entry `f` is the same in both error maps: present in both with one message, or in neither. */
  predicate SameEntry<F>(a: map<F, string>, b: map<F, string>, f: F)
  {
    (f in a <==> f in b) && (f in a ==> a[f] == b[f])
  }

  /** Box `f` carries a message exactly when its check `fails`, and then that message is `message`. */
  predicate Flagged<F>(errors: map<F, string>, f: F, fails: bool, message: string)
  {
    (f in errors <==> fails) && (f in errors ==> errors[f] == message)
  }
}
