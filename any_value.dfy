/**
 * The type-erased value `Any` of threadpool.h.
 *
 * The C++ class keeps a `unique_ptr<Base>` that is either null or points to a
 * `Derive<T>` holding the value; `cast<T>` succeeds only when the dynamic type
 * is exactly `Derive<T>`. Here the run-time type is an explicit tag and the
 * payload a value of the parameter type `V`.
 */
module AnyValue {

  /** The run-time type of a stored value; two tags match only when equal,
      as `dynamic_cast<Derive<T>*>` matches only the exact `T`. */
  datatype TypeTag = TypeTag(name: string)

  /** `Empty` is the null `base_`; `Holding` is a `Derive<T>` with its data. */
  datatype Any<V> = Empty | Holding(tag: TypeTag, data: V)

  /** What `cast<T>` yields: the value, or the thrown type-mismatch error. */
  datatype CastResult<V> = Casted(value: V) | TypeMismatch

  /** The default constructor `Any()`. */
  function EmptyAny<V>(): (a: Any<V>)
    ensures !a.Holding?
  {
    Empty
  }

  /** The converting constructor `Any(T data)`: the value can be read back
      under its own type and under no other. */
  function MakeAny<V>(tag: TypeTag, data: V): (a: Any<V>)
    ensures Cast(a, tag) == Casted(data)
    ensures forall u :: u != tag ==> Cast(a, u) == TypeMismatch
  {
    Holding(tag, data)
  }

  /** `cast<T>()`: a copy of the stored value when the stored type is `t`,
      otherwise the type-mismatch exception (also for an empty container). */
  function Cast<V>(a: Any<V>, t: TypeTag): (r: CastResult<V>)
    ensures r.Casted? <==> a.Holding? && a.tag == t
    ensures r.Casted? ==> r.value == a.data
  {
    match a
    case Empty => TypeMismatch
    case Holding(tag, data) => if tag == t then Casted(data) else TypeMismatch
  }

  /** A default-constructed `Any` holds nothing: every cast on it throws. */
  lemma CastOfEmptyThrows<V>(t: TypeTag)
    ensures Cast(EmptyAny<V>(), t) == TypeMismatch
  {
  }

  /** Moving out of an `Any` (the defaulted move operations): the target
      answers every cast as the source did, and the source is left empty, so
      every cast on it throws. The first component is the target, the second
      the source afterwards. */
  function MoveOut<V>(a: Any<V>): (r: (Any<V>, Any<V>))
    ensures forall t :: Cast(r.0, t) == Cast(a, t)
    ensures forall t :: Cast(r.1, t) == TypeMismatch
  {
    (a, EmptyAny())
  }
}
