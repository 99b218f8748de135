/** A Python `for` loop that converts each element of a list in turn and raises at the first
    element it cannot convert, written as a function: `Prefix(f, items, n)` is what the loop has
    produced after its first `n` iterations. The loops in the two ingest normalisers are
    proved against it. */
module Traverse {

  import opened Outcome

  function Prefix<T, U, E>(f: (nat, T) -> Result<U, E>, items: seq<T>, n: nat): Result<seq<U>, E>
    requires n <= |items|
    decreases n
  {
    if n == 0 then Ok([])
    else
      match Prefix(f, items, n - 1)
      case Err(e) => Err(e)
      case Ok(out) =>
        match f(n - 1, items[n - 1])
        case Err(e) => Err(e)
        case Ok(u) => Ok(out + [u])
  }

  /** The loop itself: converts the elements in order, appending each conversion, and stops
      at the first element that does not convert. */
  method Convert<T, U, E>(f: (nat, T) -> Result<U, E>, items: seq<T>) returns (r: Result<seq<U>, E>)
    ensures r == Prefix(f, items, |items|)
  {
    var out: seq<U> := [];
    var i := 0;
    while i < |items|
      invariant 0 <= i <= |items|
      invariant Prefix(f, items, i) == Ok(out)
    {
      var u := f(i, items[i]);
      if u.Err? {
        PrefixSticks(f, items, i + 1, |items|);
        return Err(u.error);
      }
      out := out + [u.value];
      i := i + 1;
    }
    return Ok(out);
  }

  /** The loop succeeds exactly when every element converts, and then it yields the
      conversions, one per element and in order. */
  lemma {:induction false} PrefixOk<T, U, E>(f: (nat, T) -> Result<U, E>, items: seq<T>, n: nat)
    requires n <= |items|
    ensures Prefix(f, items, n).Ok? <==> forall k :: 0 <= k < n ==> f(k, items[k]).Ok?
    ensures Prefix(f, items, n).Ok? ==>
      |Prefix(f, items, n).value| == n &&
      forall k :: 0 <= k < n ==> f(k, items[k]) == Ok(Prefix(f, items, n).value[k])
    decreases n
  {
    if n > 0 {
      PrefixOk(f, items, n - 1);
    }
  }

  /** When the loop fails, it fails with the error of the first element that does not
      convert. */
  lemma {:induction false} PrefixErr<T, U, E>(f: (nat, T) -> Result<U, E>, items: seq<T>, n: nat)
    requires n <= |items|
    requires Prefix(f, items, n).Err?
    ensures exists k :: 0 <= k < n && f(k, items[k]) == Err(Prefix(f, items, n).error) &&
                        (forall j :: 0 <= j < k ==> f(j, items[j]).Ok?)
    decreases n
  {
    if Prefix(f, items, n - 1).Err? {
      PrefixErr(f, items, n - 1);
    } else {
      PrefixOk(f, items, n - 1);
      var k := n - 1;
      assert f(k, items[k]) == Err(Prefix(f, items, n).error);
    }
  }

  /** Once the loop has raised, later elements change nothing. */
  lemma {:induction false} PrefixSticks<T, U, E>(f: (nat, T) -> Result<U, E>, items: seq<T>, i: nat, j: nat)
    requires i <= j <= |items|
    requires Prefix(f, items, i).Err?
    ensures Prefix(f, items, j) == Prefix(f, items, i)
    decreases j - i
  {
    if i < j {
      PrefixSticks(f, items, i, j - 1);
    }
  }
}
