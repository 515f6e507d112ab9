/** Python exceptions as values, and the Result type every partial operation returns. */
module Results {

  /** The exception classes the modelled code can raise. `NotModelled` marks a
      value whose Python behaviour this model does not spell out (for example
      `str()` of a JSON array); the model reports it instead of guessing. */
  datatype PyError =
    | KeyError
    | IndexError
    | TypeError
    | ValueError(message: string)
    | NameError
    | NotModelled

  datatype Option<+T> = None | Some(value: T)

  datatype Result<+T> = Ok(value: T) | Err(error: PyError) {
    predicate IsFailure() { Err? }

    function PropagateFailure<U>(): Result<U>
      requires Err?
    {
      Err(error)
    }

    function Extract(): T
      requires Ok?
    {
      value
    }
  }

  /** Python's `[f(i) for i in range(n)]`: f(0), f(1), ... are evaluated in
      order and the first exception ends the comprehension. */
  function MapRange<T>(n: nat, f: nat -> Result<T>): (r: Result<seq<T>>)
    ensures r.Ok? <==> forall i :: 0 <= i < n ==> f(i).Ok?
    ensures r.Ok? ==> |r.value| == n && forall i :: 0 <= i < n ==> f(i) == Ok(r.value[i])
    ensures r.Err? ==> exists i :: 0 <= i < n && f(i) == Err(r.error) && forall j :: 0 <= j < i ==> f(j).Ok?
  {
    if n == 0 then Ok([])
    else
      match MapRange(n - 1, f)
      case Err(e) => Err(e)
      case Ok(prefix) =>
        match f(n - 1)
        case Err(e) => Err(e)
        case Ok(x) => Ok(prefix + [x])
  }

  /** xs is ys with some of its elements left out, the others kept in order. */
  predicate IsSubsequence<T(==)>(xs: seq<T>, ys: seq<T>)
    decreases |ys|
  {
    xs == [] ||
    (ys != [] &&
     ((xs[|xs| - 1] == ys[|ys| - 1] && IsSubsequence(xs[..|xs| - 1], ys[..|ys| - 1])) ||
      IsSubsequence(xs, ys[..|ys| - 1])))
  }

  /** A list built by applying g to each element in turn: the first
      exception ends it. */
  function MapList<S, T>(xs: seq<S>, g: S -> Result<T>): (r: Result<seq<T>>)
    ensures r.Ok? <==> forall k :: 0 <= k < |xs| ==> g(xs[k]).Ok?
    ensures r.Ok? ==> |r.value| == |xs| && forall k :: 0 <= k < |xs| ==> g(xs[k]) == Ok(r.value[k])
    decreases |xs|
  {
    if xs == [] then Ok([])
    else
      match g(xs[0])
      case Err(e) => Err(e)
      case Ok(x) =>
        assert forall k :: 1 <= k < |xs| ==> xs[k] == xs[1..][k - 1];
        match MapList(xs[1..], g)
        case Err(e) => Err(e)
        case Ok(rest) => Ok([x] + rest)
  }

  /** A comprehension that succeeds gives the same list for any function
      that agrees with its own on the range. */
  lemma MapRangeAgree<T>(n: nat, f: nat -> Result<T>, g: nat -> Result<T>)
    requires MapRange(n, g).Ok?
    requires forall i :: 0 <= i < n ==> f(i) == g(i)
    ensures MapRange(n, f) == MapRange(n, g)
  {
    var a := MapRange(n, g).value;
    assert MapRange(n, f).Ok?;
    var b := MapRange(n, f).value;
    forall i | 0 <= i < n ensures b[i] == a[i] {
      assert f(i) == Ok(b[i]) && g(i) == Ok(a[i]);
    }
    assert b == a;
  }

  /** A comprehension raises the exception of the first index that raises. */
  lemma {:induction false} MapRangeFirstError<T>(n: nat, f: nat -> Result<T>, i: nat)
    requires i < n && f(i).Err? && forall j :: 0 <= j < i ==> f(j).Ok?
    ensures MapRange(n, f) == Err(f(i).error)
    decreases n
  {
    if n - 1 > i {
      MapRangeFirstError(n - 1, f, i);
    } else {
      assert MapRange(n - 1, f).Ok?;
    }
  }

  /** A comprehension that subscripts a list: it succeeds only when the list
      is long enough, entry i then coming from element i; a list that is too
      short, and whose elements all succeed, raises IndexError. */
  lemma {:induction false} MapRangeOfList<S, T>(n: nat, xs: seq<S>, g: S -> Result<T>, f: nat -> Result<T>)
    requires forall i: nat :: f(i) == if i < |xs| then g(xs[i]) else Err(IndexError)
    ensures MapRange(n, f).Ok? ==> |xs| >= n && forall i :: 0 <= i < n ==> g(xs[i]) == Ok(MapRange(n, f).value[i])
    ensures |xs| < n && (forall i :: 0 <= i < |xs| ==> g(xs[i]).Ok?) ==> MapRange(n, f) == Err(IndexError)
    decreases n
  {
    if n > 0 {
      MapRangeOfList(n - 1, xs, g, f);
      var r := MapRange(n, f);
      if r.Ok? {
        assert f(n - 1).Ok?;
        forall i | 0 <= i < n ensures g(xs[i]) == Ok(r.value[i]) {
          assert f(i) == Ok(r.value[i]);
        }
      }
      if |xs| < n && (forall i :: 0 <= i < |xs| ==> g(xs[i]).Ok?) {
        MapRangeFirstError(n, f, |xs|);
      }
    }
  }
}
