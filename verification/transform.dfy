/** The tag-dispatch transform of `jax_learn/datamodule.py`: a `Desc` tag
    selects, per position, which handler from `kinds` is applied to the item
    at that position; tags without a handler leave the item unchanged. */
module Transform {
  import opened Wrappers
  import opened PyList

  /** The semantic kind of a positional item. */
  datatype Desc = IMAGE | LABEL {

    /** The Python enum value of the member. */
    function Value(): int {
      match this
      case IMAGE => 1
      case LABEL => 2
    }
  }

  /** Python's `Desc(n)`: the member whose value is `n`; any other value is
      rejected (a `ValueError` in Python). */
  function DescOf(n: int): (r: Option<Desc>)
    ensures r.Some? <==> n == 1 || n == 2
    ensures r.Some? ==> r.value.Value() == n
  {
    if n == IMAGE.Value() then Some(IMAGE)
    else if n == LABEL.Value() then Some(LABEL)
    else None
  }

  /** Looking a member up by its own value gives it back. */
  lemma DescOfValue(d: Desc)
    ensures DescOf(d.Value()) == Some(d)
  {
  }

  /** A descriptor as a caller may pass it: Python's `None`, or a tuple of
      tags, possibly empty. */
  type Descriptor = Option<seq<Desc>>

  /** The one error a transform call raises: no usable descriptor. It
      carries the name of the class of the transform that was called. */
  datatype Err = EmptyDescriptor(className: string)

  /** The text of the raised exception. */
  function Message(e: Err): (r: string)
    ensures |r| > |e.className|
    ensures r[..|e.className|] == e.className
  {
    e.className + " got empty descriptor"
  }

  /** The message identifies the class: two errors with the same text name
      the same class. */
  lemma MessageNamesClass(e1: Err, e2: Err)
    requires Message(e1) == Message(e2)
    ensures e1 == e2
  {
  }

  /** A transform object: its class name, its `kinds` table from tag to
      handler, and the descriptor stored at construction (`None` when the
      class stores none). */
  datatype Transform<!T> = Transform(name: string, kinds: map<Desc, T -> T>, stored: Descriptor)

  /** The identity handler used for tags without an entry in `kinds`. */
  function Noop<T>(x: T): T {
    x
  }

  /** Python truthiness of a descriptor: `None` and the empty tuple are falsy. */
  predicate Truthy(d: Descriptor)
  {
    d.Some? && |d.value| > 0
  }

  /** Python's `a or b`: `a` when it is truthy, otherwise `b` as it is,
      falsy or not. */
  function Or(a: Descriptor, b: Descriptor): (r: Descriptor)
    ensures r == a || r == b
    ensures Truthy(r) <==> Truthy(a) || Truthy(b)
    ensures Truthy(a) ==> r == a
    ensures !Truthy(a) ==> r == b
  {
    if Truthy(a) then a else b
  }

  /** Python's `dict.get(key)`, with absence as `None`. */
  function Get<K, V>(m: map<K, V>, k: K): Option<V> {
    if k in m then Some(m[k]) else None
  }

  /** `Transform.do`: apply the handler registered for `d`, falling back to
      the identity when `kinds` has no entry for `d`. */
  function Do<T>(t: Transform<T>, item: T, d: Desc): (r: T)
    ensures d !in t.kinds ==> r == item
    ensures d in t.kinds ==> r == t.kinds[d](item)
  {
    var func := Get(t.kinds, d).GetOr(Noop);
    func(item)
  }

  /** `Transform.__call__`: choose the call-time descriptor if it is truthy
      and the stored one otherwise, raise when the choice is falsy, and
      otherwise apply `Do` to the items zipped with the descriptor's tags. */
  function Call<T>(t: Transform<T>, items: seq<T>, descriptor: Descriptor): (r: Result<seq<T>, Err>)
    ensures r.Failure? <==> !Truthy(descriptor) && !Truthy(t.stored)
    ensures r.Failure? ==> r.error == EmptyDescriptor(t.name)
    ensures r.Success? ==>
      var tags := if Truthy(descriptor) then descriptor.value else t.stored.value;
      && |r.value| == Min(|items|, |tags|)
      && forall i :: 0 <= i < |r.value| ==> r.value[i] == Do(t, items[i], tags[i])
  {
    var chosen := Or(descriptor, t.stored);
    if !Truthy(chosen) then
      Failure(EmptyDescriptor(t.name))
    else
      Success(MapSeq((p: (T, Desc)) => Do(t, p.0, p.1), Zip(items, chosen.value)))
  }

  /** A truthy call-time descriptor is used as given: what was stored at
      construction plays no part in the result. */
  lemma CallUsesGivenDescriptor<T>(t: Transform<T>, items: seq<T>, descriptor: Descriptor, other: Descriptor)
    requires Truthy(descriptor)
    ensures Call(t, items, descriptor) == Call(t.(stored := other), items, descriptor)
  {
    var a, b := Call(t, items, descriptor), Call(t.(stored := other), items, descriptor);
    assert |a.value| == |b.value|;
    forall i | 0 <= i < |a.value| ensures a.value[i] == b.value[i] {
      assert Do(t, items[i], descriptor.value[i]) == Do(t.(stored := other), items[i], descriptor.value[i]);
    }
    assert a.value == b.value;
  }

  /** A `None` or empty call-time descriptor behaves exactly like passing the
      stored descriptor. */
  lemma CallFallsBackToStored<T>(t: Transform<T>, items: seq<T>, descriptor: Descriptor)
    requires !Truthy(descriptor)
    ensures Call(t, items, descriptor) == Call(t, items, t.stored)
  {
  }

  /** Without any truthy descriptor the call raises, naming the class, and
      produces no items at all. */
  lemma CallWithoutDescriptorFails<T>(t: Transform<T>, items: seq<T>, descriptor: Descriptor)
    requires !Truthy(descriptor) && !Truthy(t.stored)
    ensures Call(t, items, descriptor) == Failure(EmptyDescriptor(t.name))
    ensures Message(Call(t, items, descriptor).error) == t.name + " got empty descriptor"
  {
  }

  /** Zip truncation: items beyond the last tag, and tags beyond the last
      item, are silently dropped with no length-mismatch error. A call
      equals the call on the items cut to the common length, and, when that
      length is not zero, also the call with the tags cut to it as well. */
  lemma CallTruncates<T>(t: Transform<T>, items: seq<T>, tags: seq<Desc>)
    requires |tags| > 0
    ensures var m := Min(|items|, |tags|);
      && Call(t, items, Some(tags)) == Call(t, items[..m], Some(tags))
      && (m > 0 ==> Call(t, items, Some(tags)) == Call(t, items[..m], Some(tags[..m])))
  {
    var m := Min(|items|, |tags|);
    var a, b := Call(t, items, Some(tags)), Call(t, items[..m], Some(tags));
    assert |a.value| == m == |b.value|;
    forall i | 0 <= i < m ensures a.value[i] == b.value[i] {
      assert items[..m][i] == items[i];
    }
    assert a.value == b.value;
    if m > 0 {
      var c := Call(t, items[..m], Some(tags[..m]));
      assert |c.value| == m;
      forall i | 0 <= i < m ensures a.value[i] == c.value[i] {
        assert items[..m][i] == items[i] && tags[..m][i] == tags[i];
      }
      assert a.value == c.value;
    }
  }

  /** The base `Transform` class: an empty `kinds` table and no stored
      descriptor. */
  function BaseTransform<T(!new)>(): (t: Transform<T>)
    ensures t.name == "Transform" && t.stored == None
    ensures forall item, d :: Do(t, item, d) == item
  {
    Transform("Transform", map[], None)
  }

  /** With an empty `kinds` table every tag falls through to the identity, so
      the base class returns the zip-truncated items unchanged. */
  lemma BaseTransformIsIdentity<T(!new)>(items: seq<T>, tags: seq<Desc>)
    requires |tags| > 0
    ensures Call(BaseTransform(), items, Some(tags)) == Success(items[..Min(|items|, |tags|)])
  {
    var r := Call(BaseTransform(), items, Some(tags));
    assert |r.value| == Min(|items|, |tags|);
    forall i | 0 <= i < |r.value| ensures r.value[i] == items[i] {
    }
    assert r.value == items[..Min(|items|, |tags|)];
  }
}
