/** Python exceptions raised by the scanner core, and the value-or-exception wrapper
    that every fallible operation of the model returns instead of raising. */
module Outcomes {

  /** The exceptions the modelled code can raise; messages are kept where the
      source spells them out. */
  datatype Exception =
    | KeyError(key: string)            // a missing key in a decoded JSON object
    | TypeError                        // subscripting, iterating or hashing a value of the wrong kind
    | ValueError(message: string)
    | RuntimeError(message: string)
    | JsonDecodeError                  // a file whose text is not JSON

  /** Either the value an operation returned or the exception it raised. */
  datatype Outcome<+T> = Ok(value: T) | Raised(exc: Exception) {
    predicate IsFailure() {
      Raised?
    }

    function PropagateFailure<U>(): Outcome<U>
      requires Raised?
    {
      Raised(exc)
    }

    function Extract(): T
      requires Ok?
    {
      value
    }
  }

  datatype Option<+T> = None | Some(value: T)

  /** A Python loop `for x in xs: out.extend(f(x))`, given what each call returned or raised:
      the outputs in order, or the exception of the first call that raised. */
  function Flatten<T>(outs: seq<Outcome<seq<T>>>): (r: Outcome<seq<T>>)
    ensures r.Ok? <==> forall i :: 0 <= i < |outs| ==> outs[i].Ok?
    ensures r.Raised? ==> exists i :: 0 <= i < |outs| && outs[i] == Raised(r.exc)
                                      && forall j :: 0 <= j < i ==> outs[j].Ok?
  {
    if outs == [] then Ok([])
    else
      var init := outs[..|outs| - 1];
      assert forall i :: 0 <= i < |init| ==> init[i] == outs[i];
      var prev :- Flatten(init);
      var last :- outs[|outs| - 1];
      Ok(prev + last)
  }

  /** An output of a successful loop came from one of the calls, and every output of every
      call is in the result. */
  lemma {:induction false} FlattenMembers<T>(outs: seq<Outcome<seq<T>>>)
    requires Flatten(outs).Ok?
    ensures forall y :: y in Flatten(outs).value <==> exists i :: 0 <= i < |outs| && y in outs[i].value
  {
    if outs != [] {
      var init := outs[..|outs| - 1];
      FlattenMembers(init);
      assert forall i :: 0 <= i < |init| ==> init[i] == outs[i];
    }
  }

  /** Once a prefix of the calls raises, the loop ends with that exception. */
  lemma {:induction false} FlattenKeepsFailure<T>(outs: seq<Outcome<seq<T>>>, n: nat)
    requires n <= |outs| && Flatten(outs[..n]).Raised?
    ensures Flatten(outs) == Flatten(outs[..n])
    decreases |outs| - n
  {
    if n < |outs| {
      assert outs[..n + 1][..n] == outs[..n];
      FlattenKeepsFailure(outs, n + 1);
    } else {
      assert outs[..n] == outs;
    }
  }

  /** One more turn of the loop: a call that returns extends the output, and a call that
      raises ends the whole loop with its exception. */
  lemma FlattenStep<T>(outs: seq<Outcome<seq<T>>>, i: nat, acc: seq<T>)
    requires i < |outs| && Flatten(outs[..i]) == Ok(acc)
    ensures outs[i].Ok? ==> Flatten(outs[..i + 1]) == Ok(acc + outs[i].value)
    ensures outs[i].Raised? ==> Flatten(outs) == Raised(outs[i].exc)
  {
    assert outs[..i + 1][..i] == outs[..i];
    if outs[i].Raised? {
      FlattenKeepsFailure(outs, i + 1);
    }
  }

  /** The first call that raises decides the exception of the whole loop. */
  lemma FirstFailureWins<T>(outs: seq<Outcome<seq<T>>>, k: nat)
    requires k < |outs| && (forall i :: 0 <= i < k ==> outs[i].Ok?) && outs[k].Raised?
    ensures Flatten(outs) == Raised(outs[k].exc)
  {
    var prefix := outs[..k + 1];
    assert prefix[..k] == outs[..k];
    assert Flatten(outs[..k]).Ok?;
    FlattenKeepsFailure(outs, k + 1);
  }

  /** Running the loop over two parts in turn: the outputs of the first part, then those of
      the second; an exception in the first part wins. */
  lemma {:induction false} FlattenAppend<T>(xs: seq<Outcome<seq<T>>>, ys: seq<Outcome<seq<T>>>)
    ensures Flatten(xs + ys) == (var a :- Flatten(xs); var b :- Flatten(ys); Ok(a + b))
  {
    if ys == [] {
      assert xs + ys == xs;
      if Flatten(xs).Ok? {
        assert Flatten(xs).value + [] == Flatten(xs).value;
      }
    } else {
      var init := ys[..|ys| - 1];
      assert (xs + ys)[..|xs + ys| - 1] == xs + init;
      FlattenAppend(xs, init);
      if Flatten(xs).Ok? && Flatten(init).Ok? && ys[|ys| - 1].Ok? {
        assert Flatten(xs).value + Flatten(init).value + ys[|ys| - 1].value
               == Flatten(xs).value + (Flatten(init).value + ys[|ys| - 1].value);
      }
    }
  }
}
