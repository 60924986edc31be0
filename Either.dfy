/** The two-variant result type: a `Left` or a `Right`, each holding one value that
    is fixed when it is made. */
module Either {

  datatype Either<L, R> = Left(left: L) | Right(right: R)
  {
    /** Which variant this is; exactly one of the two holds. */
    predicate IsLeft() { this.Left? }
    predicate IsRight() { this.Right? }

    /** The held value, for each variant. */
    function GetLeft(): L
      requires IsLeft()
    {
      left
    }

    function GetRight(): R
      requires IsRight()
    {
      right
    }
  }

  /** `Left.of`: the only way to make a left value. */
  function LeftOf<L, R>(value: L): (e: Either<L, R>)
    ensures e.IsLeft() && !e.IsRight()
    ensures e.GetLeft() == value
  {
    Left(value)
  }

  /** `Right.of`: the only way to make a right value. */
  function RightOf<L, R>(value: R): (e: Either<L, R>)
    ensures e.IsRight() && !e.IsLeft()
    ensures e.GetRight() == value
  {
    Right(value)
  }

  /** Every value is made by exactly one of the two factories, from the value it holds. */
  lemma EitherIsOneOf<L, R>(e: Either<L, R>)
    ensures e.IsLeft() != e.IsRight()
    ensures e.IsLeft() ==> e == LeftOf(e.GetLeft())
    ensures e.IsRight() ==> e == RightOf(e.GetRight())
  {
  }

  /** A factory loses nothing: equal results come from equal values. */
  lemma FactoriesAreInjective<L, R>(a: L, b: L, c: R, d: R)
    ensures LeftOf<L, R>(a) == LeftOf<L, R>(b) ==> a == b
    ensures RightOf<L, R>(c) == RightOf<L, R>(d) ==> c == d
    ensures LeftOf<L, R>(a) != RightOf<L, R>(c)
  {
  }
}
