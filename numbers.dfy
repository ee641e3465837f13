/** Numbers as the core sees them: IEEE doubles without NaN for range bounds, complex numbers
    as pairs of reals, and the scalar-or-vector payloads that numpy broadcasts. */
module Numbers {
  import opened Outcomes

  /** A double that may be infinite; the default valid range of a Constant is (0, inf). */
  datatype Bound = Fin(x: real) | PosInf | NegInf

  predicate Le(a: Bound, b: Bound) {
    match (a, b)
    case (NegInf, _) => true
    case (_, PosInf) => true
    case (Fin(x), Fin(y)) => x <= y
    case _ => false
  }

  predicate Lt(a: Bound, b: Bound) {
    Le(a, b) && a != b
  }

  lemma LeTotal(a: Bound, b: Bound)
    ensures Le(a, b) || Le(b, a)
  {
  }

  function Min2(a: Bound, b: Bound): Bound {
    if Le(a, b) then a else b
  }

  function Max2(a: Bound, b: Bound): Bound {
    if Le(a, b) then b else a
  }

  /** `np.min` over a non-empty array of bounds: a member that no element undercuts. */
  function MinOf(s: seq<Bound>): (m: Bound)
    requires |s| > 0
    ensures m in s
    ensures forall i :: 0 <= i < |s| ==> Le(m, s[i])
  {
    if |s| == 1 then s[0] else Min2(s[0], MinOf(s[1..]))
  }

  /** `np.max` over a non-empty array of bounds: a member that no element exceeds. */
  function MaxOf(s: seq<Bound>): (m: Bound)
    requires |s| > 0
    ensures m in s
    ensures forall i :: 0 <= i < |s| ==> Le(s[i], m)
  {
    if |s| == 1 then s[0] else Max2(s[0], MaxOf(s[1..]))
  }

  /** `x` lies in the closed interval [lo, hi]. */
  predicate Within(x: real, lo: Bound, hi: Bound) {
    Le(lo, Fin(x)) && Le(Fin(x), hi)
  }

  datatype Complex = Complex(re: real, im: real)

  function FromReal(x: real): Complex {
    Complex(x, 0.0)
  }

  function CAdd(a: Complex, b: Complex): Complex {
    Complex(a.re + b.re, a.im + b.im)
  }

  function CMul(a: Complex, b: Complex): Complex {
    Complex(a.re * b.re - a.im * b.im, a.re * b.im + a.im * b.re)
  }

  /** `np.power(z, 2)` on a complex number, as plain real-pair arithmetic. */
  function Square(z: Complex): (r: Complex)
    ensures r.re == z.re * z.re - z.im * z.im
    ensures r.im == 2.0 * z.re * z.im
  {
    CMul(z, z)
  }

  /** `a + 1j * b` for two complex values (a real value has a zero imaginary part). */
  function WithImaginary(a: Complex, b: Complex): (r: Complex)
    ensures b.im == 0.0 && a.im == 0.0 ==> r == Complex(a.re, b.re)
  {
    CAdd(a, CMul(Complex(0.0, 1.0), b))
  }

  /** A Python scalar or a one-dimensional numpy array. */
  datatype Payload<T> = Scalar(x: T) | Vector(xs: seq<T>)

  function Size<T>(p: Payload<T>): nat {
    match p
    case Scalar(_) => 1
    case Vector(xs) => |xs|
  }

  function At<T>(p: Payload<T>, i: nat): T
    requires i < Size(p)
  {
    match p
    case Scalar(x) => x
    case Vector(xs) => xs[i]
  }

  /** Same tensor order (scalar or vector) and, for vectors, the same length. */
  predicate SameShape<T, U>(p: Payload<T>, q: Payload<U>) {
    p.Scalar? == q.Scalar? && Size(p) == Size(q)
  }

  /** An elementwise numpy operation. */
  function Lift<T, U>(p: Payload<T>, g: T -> U): (r: Payload<U>)
    ensures SameShape(p, r)
  {
    match p
    case Scalar(x) => Scalar(g(x))
    case Vector(xs) => Vector(seq(|xs|, i requires 0 <= i < |xs| => g(xs[i])))
  }

  lemma LiftAt<T, U>(p: Payload<T>, g: T -> U, i: nat)
    requires i < Size(p)
    ensures At(Lift(p, g), i) == g(At(p, i))
  {
  }

  /** Two arrays broadcast against each other when they have equal length or one of them
      is a scalar or has length one; otherwise numpy raises ValueError. */
  predicate Broadcastable<T, U>(p: Payload<T>, q: Payload<U>) {
    p.Scalar? || q.Scalar? || Size(p) == Size(q) || Size(p) == 1 || Size(q) == 1
  }

  /** Length of a broadcast result. */
  function BroadcastSize<T, U>(p: Payload<T>, q: Payload<U>): nat {
    if p.Scalar? then Size(q)
    else if q.Scalar? then Size(p)
    else if Size(p) == 1 then Size(q)
    else Size(p)
  }

  /** The index of one operand that element `i` of a broadcast reads. */
  function Pick<T>(q: Payload<T>, i: nat): nat {
    if Size(q) == 1 then 0 else i
  }

  /** A binary numpy operation with broadcasting. */
  function Zip<T, U, V>(p: Payload<T>, q: Payload<U>, g: (T, U) -> V): (r: Result<Payload<V>>)
    ensures r.Ok? <==> Broadcastable(p, q)
    ensures r.Err? ==> r.error == ValueError
    ensures r.Ok? ==> (r.value.Scalar? <==> p.Scalar? && q.Scalar?)
    ensures r.Ok? ==> Size(r.value) == BroadcastSize(p, q)
  {
    if !Broadcastable(p, q) then Err(ValueError)
    else if p.Scalar? && q.Scalar? then Ok(Scalar(g(p.x, q.x)))
    else
      var n := BroadcastSize(p, q);
      Ok(Vector(seq(n, i requires 0 <= i < n => g(At(p, Pick(p, i)), At(q, Pick(q, i))))))
  }

  /** Element `i` of a broadcast combines the elements of both operands that it reads. */
  lemma ZipAt<T, U, V>(p: Payload<T>, q: Payload<U>, g: (T, U) -> V, i: nat)
    requires Broadcastable(p, q) && i < BroadcastSize(p, q)
    ensures Pick(p, i) < Size(p) && Pick(q, i) < Size(q)
    ensures At(Zip(p, q, g).value, i) == g(At(p, Pick(p, i)), At(q, Pick(q, i)))
  {
  }

  /** A broadcast result broadcasts again against its right operand (`rhs += term` in a loop). */
  lemma ZipBroadcastsAgain<T, U, V>(p: Payload<T>, q: Payload<U>, g: (T, U) -> V)
    requires Broadcastable(p, q)
    ensures Broadcastable(Zip(p, q, g).value, q)
  {
  }
}
