/** Option and Result values shared by the modules of the model. */
module Common {

  /** Python's `Optional[T]`: `None` or a present value. */
  datatype Option<+T> = None | Some(value: T)

  /** The outcome of an operation that may raise: a value or the error it raised. */
  datatype Result<+T, +E> = Ok(value: T) | Err(error: E)

  /** No value occurs twice in `s`. */
  predicate Distinct<T(==)>(s: seq<T>)
  {
    forall i, j :: 0 <= i < j < |s| ==> s[i] != s[j]
  }

  /** Applies `f` to each element in order and collects the values; the
      first element on which `f` fails makes the whole traversal fail with
      that element's error. */
  function MapOrFail<A, B, E>(xs: seq<A>, f: A -> Result<B, E>): (r: Result<seq<B>, E>)
    ensures r.Ok? <==> forall i :: 0 <= i < |xs| ==> f(xs[i]).Ok?
    ensures r.Ok? ==> |r.value| == |xs|
  {
    if xs == [] then Ok([])
    else
      var n := |xs| - 1;
      match MapOrFail(xs[..n], f)
      case Err(e) => Err(e)
      case Ok(ys) =>
        match f(xs[n])
        case Err(e) => Err(e)
        case Ok(y) => Ok(ys + [y])
  }

  /** On success the i-th value is the one `f` gives the i-th element. */
  lemma {:induction false} MapOrFailValues<A, B, E>(xs: seq<A>, f: A -> Result<B, E>)
    requires MapOrFail(xs, f).Ok?
    ensures forall i :: 0 <= i < |xs| ==> f(xs[i]) == Ok(MapOrFail(xs, f).value[i])
  {
    if xs != [] {
      var n := |xs| - 1;
      var init := xs[..n];
      MapOrFailValues(init, f);
      forall i | 0 <= i < n
        ensures f(xs[i]) == Ok(MapOrFail(xs, f).value[i])
      {
        assert xs[i] == init[i];
      }
    }
  }

  /** On failure the error is the one of the first element `f` rejects. */
  lemma {:induction false} MapOrFailFirstError<A, B, E>(xs: seq<A>, f: A -> Result<B, E>)
    requires MapOrFail(xs, f).Err?
    ensures exists i :: 0 <= i < |xs| && f(xs[i]) == Err(MapOrFail(xs, f).error)
                        && forall j :: 0 <= j < i ==> f(xs[j]).Ok?
  {
    var n := |xs| - 1;
    var init := xs[..n];
    if MapOrFail(init, f).Err? {
      MapOrFailFirstError(init, f);
      var i :| 0 <= i < |init| && f(init[i]) == Err(MapOrFail(init, f).error)
               && forall j :: 0 <= j < i ==> f(init[j]).Ok?;
      assert xs[i] == init[i];
      assert forall j :: 0 <= j < i ==> xs[j] == init[j];
    } else {
      assert forall j :: 0 <= j < n ==> xs[j] == init[j];
    }
  }
}
