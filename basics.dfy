/** Values shared by the three condition scorers: optional values, submitted
    form fields, the clamp to [0, 1], jitter bounds and the outcome of asking
    a trained classifier for a probability. */
module Basics {

  datatype Option<+T> = None | Some(value: T) {
    /** `session.get(key, default)`: the stored value, or the default when absent. */
    function GetOr(default: T): T {
      match this
      case Some(v) => v
      case None => default
    }
  }

  /** One submitted form field: not sent at all, sent but not a number, or a number. */
  datatype FormValue = Absent | Malformed | Number(v: real)

  /** A submitted form, by field name. */
  type Form = map<string, FormValue>

  function Lookup(form: Form, name: string): FormValue {
    if name in form then form[name] else Absent
  }

  /** `try: float(form[name]) except (KeyError, ValueError): default` */
  function NumberOr(f: FormValue, default: real): real {
    if f.Number? then f.v else default
  }

  /** `value` is what a field reads as: the submitted number, or `default`
      when the field is absent or malformed. */
  predicate ReadsAs(f: FormValue, default: real, value: real) {
    (f.Number? ==> value == f.v) && (!f.Number? ==> value == default)
  }

  /** `float(form.get(name, 0))` without a handler: an absent field reads as 0,
      a malformed one raises (None). */
  function GetNumber(form: Form, name: string): (r: Option<real>)
    ensures r.None? <==> Lookup(form, name).Malformed?
    ensures Lookup(form, name).Absent? ==> r == Some(0.0)
    ensures Lookup(form, name).Number? ==> r == Some(Lookup(form, name).v)
  {
    match Lookup(form, name)
    case Absent => Some(0.0)
    case Malformed => None
    case Number(v) => Some(v)
  }

  /** The value of `float(form.get(name, 0))` when it does not raise. */
  function NumberOrZero(form: Form, name: string): (r: real)
    ensures !Lookup(form, name).Malformed? ==> ReadsAs(Lookup(form, name), 0.0, r)
  {
    GetNumber(form, name).GetOr(0.0)
  }

  /** `min(1.0, max(0.0, v))` */
  function Clamp(v: real): (r: real)
    ensures 0.0 <= r <= 1.0
    ensures 0.0 <= v <= 1.0 ==> r == v
    ensures v < 0.0 ==> r == 0.0
    ensures v > 1.0 ==> r == 1.0
  {
    if 1.0 < (if 0.0 < v then v else 0.0) then 1.0
    else if 0.0 < v then v
    else 0.0
  }

  lemma ClampMonotone(a: real, b: real)
    requires a <= b
    ensures Clamp(a) <= Clamp(b)
  {
  }

  /** A value drawn by `random.uniform(-bound, bound)`. */
  predicate JitterWithin(jitter: real, bound: real) {
    -bound <= jitter <= bound
  }

  /** What asking a trained classifier gave: no usable model was loaded, the
      model returned a probability, or the call raised an exception. */
  datatype ModelResult = NoModel | Probability(p: real) | Failed
}
