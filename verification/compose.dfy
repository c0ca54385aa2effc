/** `Compose` of `jax_learn/datamodule.py`: a fan-out combinator. Every child
    transform is called on the same original items and descriptor, and the
    children's outputs are collected in child order; no child ever sees
    another child's output. */
module Composition {
  import opened Wrappers
  import opened PyList
  import opened Transform

  /** A `Compose` object: the child transforms it was built from. */
  datatype Compose<!T> = Compose(transforms: seq<Transform<T>>)

  /** Collecting the outcomes of a list comprehension whose element
      expression may raise: the values in order when none raised, otherwise
      the error of the first one that raised. */
  function Collect<A, E>(rs: seq<Result<A, E>>): (r: Result<seq<A>, E>)
    ensures r.Success? ==> |r.value| == |rs|
    decreases |rs|
  {
    if |rs| == 0 then
      Success([])
    else if rs[0].Failure? then
      Failure(rs[0].error)
    else
      var rest := Collect(rs[1..]);
      if rest.Failure? then Failure(rest.error) else Success([rs[0].value] + rest.value)
  }

  /** Collecting succeeds exactly when no outcome is an error. */
  lemma {:induction false} CollectSucceeds<A, E>(rs: seq<Result<A, E>>)
    ensures Collect(rs).Success? <==> forall k :: 0 <= k < |rs| ==> rs[k].Success?
    decreases |rs|
  {
    if |rs| > 0 {
      CollectSucceeds(rs[1..]);
      assert forall k :: 0 < k < |rs| ==> rs[k] == rs[1..][k - 1];
    }
  }

  /** On success, value `k` of the collection is the value of outcome `k`. */
  lemma {:induction false} CollectOutputs<A, E>(rs: seq<Result<A, E>>)
    ensures var r := Collect(rs);
      r.Success? ==> forall k :: 0 <= k < |rs| ==> rs[k].Success? && r.value[k] == rs[k].value
    decreases |rs|
  {
    if |rs| > 0 {
      CollectOutputs(rs[1..]);
      assert forall k :: 0 < k < |rs| ==> rs[k] == rs[1..][k - 1];
    }
  }

  /** On failure, the error is that of some outcome `k` that is an error, and
      every outcome before `k` succeeded. */
  lemma {:induction false} CollectFirstError<A, E>(rs: seq<Result<A, E>>)
    ensures var r := Collect(rs);
      r.Failure? ==>
        exists k :: && 0 <= k < |rs|
                    && rs[k] == Failure(r.error)
                    && forall j :: 0 <= j < k ==> rs[j].Success?
    decreases |rs|
  {
    if |rs| > 0 && rs[0].Success? {
      var rest := Collect(rs[1..]);
      if rest.Failure? {
        CollectFirstError(rs[1..]);
        var k :| && 0 <= k < |rs[1..]|
                 && rs[1..][k] == Failure(rest.error)
                 && forall j :: 0 <= j < k ==> rs[1..][j].Success?;
        assert rs[k + 1] == rs[1..][k];
        assert forall j :: 0 < j < k + 1 ==> rs[j] == rs[1..][j - 1];
      }
    }
  }

  /** Collecting `a + b` gives `a`'s values followed by `b`'s, and fails with
      `a`'s error if `a` has one, else with `b`'s error if `b` has one. */
  lemma {:induction false} CollectAppend<A, E>(a: seq<Result<A, E>>, b: seq<Result<A, E>>)
    ensures var whole, left, right := Collect(a + b), Collect(a), Collect(b);
      && (left.Failure? ==> whole == left)
      && (left.Success? && right.Failure? ==> whole == right)
      && (left.Success? && right.Success? ==> whole == Success(left.value + right.value))
    decreases |a|
  {
    if |a| == 0 {
      assert a + b == b;
      var right := Collect(b);
      if right.Success? {
        assert [] + right.value == right.value;
      }
    } else {
      assert (a + b)[0] == a[0];
      assert (a + b)[1..] == a[1..] + b;
      CollectAppend(a[1..], b);
      var rest, right := Collect(a[1..]), Collect(b);
      if a[0].Success? && rest.Success? && right.Success? {
        assert [a[0].value] + (rest.value + right.value) == ([a[0].value] + rest.value) + right.value;
      }
    }
  }

  /** The outcome of each child's call on the same items and descriptor, in
      child order. */
  function Outcomes<T>(ts: seq<Transform<T>>, items: seq<T>, descriptor: Descriptor): seq<Result<seq<T>, Err>> {
    MapSeq((t: Transform<T>) => Call(t, items, descriptor), ts)
  }

  /** `Compose.__call__`: the list comprehension `[transform(items,
      descriptor) for transform in transforms]`. The descriptor is passed
      down exactly as given, so a falsy one makes each child fall back to its
      own stored descriptor or raise; `Compose` adds no check of its own. */
  function ComposeCall<T>(c: Compose<T>, items: seq<T>, descriptor: Descriptor): (r: Result<seq<seq<T>>, Err>)
    ensures r.Success? <==>
      forall k :: 0 <= k < |c.transforms| ==> Call(c.transforms[k], items, descriptor).Success?
    ensures r.Success? ==>
      && |r.value| == |c.transforms|
      && forall k :: 0 <= k < |c.transforms| ==> r.value[k] == Call(c.transforms[k], items, descriptor).value
    ensures r.Failure? ==>
      exists k :: && 0 <= k < |c.transforms|
                  && Call(c.transforms[k], items, descriptor) == Failure(r.error)
                  && forall j :: 0 <= j < k ==> Call(c.transforms[j], items, descriptor).Success?
  {
    var rs := Outcomes(c.transforms, items, descriptor);
    CollectSucceeds(rs);
    CollectOutputs(rs);
    CollectFirstError(rs);
    Collect(rs)
  }

  /** Fan-out distributes over concatenation of the child lists: composing
      `a + b` gives `a`'s outputs followed by `b`'s, each computed from the
      original items, and fails with `a`'s error if one of `a` raises, else
      with `b`'s. */
  lemma ComposeAppend<T>(a: seq<Transform<T>>, b: seq<Transform<T>>, items: seq<T>, descriptor: Descriptor)
    ensures var whole := ComposeCall(Compose(a + b), items, descriptor);
      var left := ComposeCall(Compose(a), items, descriptor);
      var right := ComposeCall(Compose(b), items, descriptor);
      && (left.Failure? ==> whole == left)
      && (left.Success? && right.Failure? ==> whole == right)
      && (left.Success? && right.Success? ==> whole == Success(left.value + right.value))
  {
    var oa, ob := Outcomes(a, items, descriptor), Outcomes(b, items, descriptor);
    assert Outcomes(a + b, items, descriptor) == oa + ob;
    CollectAppend(oa, ob);
  }

  /** A falsy descriptor given to `Compose` is handed down unchanged, so each
      child's output is what that child gives with its own stored descriptor. */
  lemma ComposeFalsyDescriptorUsesStored<T>(c: Compose<T>, items: seq<T>, descriptor: Descriptor)
    requires !Truthy(descriptor)
    ensures var r := ComposeCall(c, items, descriptor);
      r.Success? ==> forall k :: 0 <= k < |c.transforms| ==>
        r.value[k] == Call(c.transforms[k], items, c.transforms[k].stored).value
  {
    var r := ComposeCall(c, items, descriptor);
    if r.Success? {
      forall k | 0 <= k < |c.transforms|
        ensures r.value[k] == Call(c.transforms[k], items, c.transforms[k].stored).value
      {
        CallFallsBackToStored(c.transforms[k], items, descriptor);
      }
    }
  }
}
