/**
 * The shape shared by the three result loops of QueryEngine:
 *
 *   out = []
 *   for item in items: out.append(<record built from item>)
 *
 * Building a record may raise, and an exception ends the loop, so the list is
 * either complete or not returned at all.  `Collect` is the specification of
 * such a loop, written as a fold over the processed prefix so that a loop
 * invariant can mention it directly.
 */
module ResultLoop {
  import opened PyJson

  /** The outcome of appending `f(item)` for every item, from first to last. */
  function Collect<T>(items: seq<Json>, f: Json -> Result<T>): (r: Result<seq<T>>)
    // a completed loop appended exactly once per item
    ensures r.Ok? ==> |r.value| == |items|
  {
    if items == [] then Ok([])
    else
      match Collect(items[..|items| - 1], f)
      case Err(e) => Err(e)
      case Ok(done) =>
        match f(items[|items| - 1])
        case Err(e) => Err(e)
        case Ok(x) => Ok(done + [x])
  }

  /** One more loop iteration extends the specification of the prefix. */
  lemma CollectStep<T>(items: seq<Json>, i: nat, f: Json -> Result<T>)
    requires i < |items|
    ensures Collect(items[..i + 1], f) ==
              match Collect(items[..i], f)
              case Err(e) => Err(e)
              case Ok(done) =>
                match f(items[i])
                case Err(e) => Err(e)
                case Ok(x) => Ok(done + [x])
  {
    assert items[..i + 1][..i] == items[..i];
  }

  /** Once the loop has raised, the items after that point do not matter. */
  lemma {:induction false} CollectErrPrefix<T>(items: seq<Json>, i: nat, f: Json -> Result<T>)
    requires i <= |items|
    requires Collect(items[..i], f).Err?
    ensures Collect(items, f) == Collect(items[..i], f)
    decreases |items| - i
  {
    if i < |items| {
      CollectStep(items, i, f);
      CollectErrPrefix(items, i + 1, f);
    } else {
      assert items[..i] == items;
    }
  }

  /** An item whose record cannot be built ends the loop with its exception. */
  lemma CollectStopsAt<T>(items: seq<Json>, i: nat, f: Json -> Result<T>)
    requires i < |items|
    requires Collect(items[..i], f).Ok? && f(items[i]).Err?
    ensures Collect(items, f) == Err(f(items[i]).error)
  {
    CollectStep(items, i, f);
    CollectErrPrefix(items, i + 1, f);
  }

  /** The loop completes exactly when every item yields a record. */
  lemma {:induction false} CollectOkIff<T>(items: seq<Json>, f: Json -> Result<T>)
    ensures Collect(items, f).Ok? <==> forall i | 0 <= i < |items| :: f(items[i]).Ok?
  {
    if items != [] {
      var n := |items| - 1;
      var prefix := items[..n];
      CollectOkIff(prefix, f);
      assert forall i | 0 <= i < n :: prefix[i] == items[i];
    }
  }

  /** A completed loop returns one record per item, in item order. */
  lemma {:induction false} CollectPointwise<T>(items: seq<Json>, f: Json -> Result<T>)
    requires Collect(items, f).Ok?
    ensures |Collect(items, f).value| == |items|
    ensures forall i | 0 <= i < |items| :: f(items[i]) == Ok(Collect(items, f).value[i])
  {
    if items != [] {
      var n := |items| - 1;
      var prefix := items[..n];
      CollectPointwise(prefix, f);
      assert forall i | 0 <= i < n :: prefix[i] == items[i];
    }
  }

  /**
   * A failed loop raises the exception of the first item whose record cannot
   * be built: every earlier item succeeded.
   */
  lemma {:induction false} CollectFirstError<T>(items: seq<Json>, f: Json -> Result<T>)
    returns (k: nat)
    requires Collect(items, f).Err?
    ensures k < |items|
    ensures f(items[k]) == Err(Collect(items, f).error)
    ensures forall j | 0 <= j < k :: f(items[j]).Ok?
  {
    var n := |items| - 1;
    var prefix := items[..n];
    assert forall i | 0 <= i < n :: prefix[i] == items[i];
    if Collect(prefix, f).Err? {
      k := CollectFirstError(prefix, f);
    } else {
      CollectOkIff(prefix, f);
      k := n;
    }
  }
}
