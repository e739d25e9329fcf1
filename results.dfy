/** The three-state outcome that every repository operation emits, and the
    nullable-value wrapper used for the app's optional fields. */
module Results {

  /** Kotlin's `T?`: a value that may be null. */
  datatype Option<+T> = None | Some(value: T) {
    /** Kotlin's elvis operator `x ?: default`. */
    function OrElse(default: T): (r: T)
      ensures Some? ==> r == value
      ensures None? ==> r == default
    {
      match this
      case Some(v) => v
      case None => default
    }
  }

  /** The sealed outcome of a repository call: a payload, an error message,
      or "still in flight". The variance annotation `+R` is Kotlin's `out R`. */
  datatype Result<+R> = Success(data: R) | Error(error: string) | Loading {

    /** Whether this emission ends the operation (Success or Error). */
    predicate IsTerminal() {
      !Loading?
    }
  }

  /** Every value is exactly one of the three variants. */
  lemma ExactlyOneVariant<R>(r: Result<R>)
    ensures r.Success? || r.Error? || r.Loading?
    ensures !(r.Success? && r.Error?) && !(r.Success? && r.Loading?) && !(r.Error? && r.Loading?)
    ensures r.IsTerminal() <==> !r.Loading?
  {
  }

  /** `Success` and `Error` are data classes: equal exactly when their single
      field is equal; `Loading` is one payload-free value. */
  lemma StructuralEquality<R>(a: R, b: R, m: string, n: string, r: Result<R>)
    ensures Success(a) == Success(b) <==> a == b
    ensures Result<R>.Error(m) == Result<R>.Error(n) <==> m == n
    ensures Success(a) != Error(m) && Success(a) != Loading && Result<R>.Error(m) != Result<R>.Loading
    ensures r.Loading? ==> r == Loading
  {
  }

  /** `Error` and `Loading` are `Result<Nothing>`, so with `out R` they
      inhabit `Result<T>` for every payload type T: they can be built at any
      payload type and carry no payload there. */
  lemma FailuresInhabitEveryType<T>(m: string)
    ensures var e: Result<T> := Error(m); e.Error? && e.error == m && e.IsTerminal()
    ensures var l: Result<T> := Loading; l.Loading? && !l.IsTerminal()
  {
  }
}
