/** `ToFloat` of `jax_learn/datamodule.py`: a transform whose `kinds` table
    has a single entry, converting `IMAGE` items to a unit-scaled float
    array. The conversion itself (an array cast and a division by 255) is
    numeric work of an external array library and is taken as a parameter. */
module ToFloatTransform {
  import opened Wrappers
  import opened PyList
  import opened Transform
  import opened Composition

  /** `ToFloat(descriptor)`: class name `ToFloat`, a `kinds` table mapping
      only `IMAGE` to the conversion, and the given default descriptor. */
  function ToFloat<T(!new)>(imageToFloat: T -> T, descriptor: Descriptor): (t: Transform<T>)
    ensures t.name == "ToFloat" && t.stored == descriptor
    ensures forall item, d :: Do(t, item, d) == if d == IMAGE then imageToFloat(item) else item
  {
    Transform("ToFloat", map[IMAGE := imageToFloat], descriptor)
  }

  /** The `kinds` table has `IMAGE` as its only key: `IMAGE` items are
      converted and `LABEL` items pass through unchanged. */
  lemma ToFloatDispatch<T(!new)>(imageToFloat: T -> T, descriptor: Descriptor, item: T)
    ensures ToFloat(imageToFloat, descriptor).kinds.Keys == {IMAGE}
    ensures Do(ToFloat(imageToFloat, descriptor), item, IMAGE) == imageToFloat(item)
    ensures Do(ToFloat(imageToFloat, descriptor), item, LABEL) == item
  {
  }

  /** A `ToFloat` call succeeds exactly when the call-time or the default
      descriptor is truthy; then position `i` of the output holds the
      converted item when its tag is `IMAGE` and the item itself when its
      tag is `LABEL`. */
  lemma ToFloatCall<T(!new)>(imageToFloat: T -> T, default: Descriptor, items: seq<T>, descriptor: Descriptor)
    ensures var r := Call(ToFloat(imageToFloat, default), items, descriptor);
      && (r.Success? <==> Truthy(descriptor) || Truthy(default))
      && (r.Failure? ==> Message(r.error) == "ToFloat got empty descriptor")
      && (r.Success? ==>
            var tags := if Truthy(descriptor) then descriptor.value else default.value;
            && |r.value| == Min(|items|, |tags|)
            && forall i :: 0 <= i < |r.value| ==>
                 r.value[i] == (if tags[i] == IMAGE then imageToFloat(items[i]) else items[i]))
  {
    var t := ToFloat(imageToFloat, default);
    var r := Call(t, items, descriptor);
    if r.Success? {
      var tags := if Truthy(descriptor) then descriptor.value else default.value;
      forall i | 0 <= i < |r.value|
        ensures r.value[i] == (if tags[i] == IMAGE then imageToFloat(items[i]) else items[i])
      {
        ToFloatDispatch(imageToFloat, default, items[i]);
      }
    }
  }

  /** `ToFloat(descriptor=(IMAGE,))` applied to one image converts it. */
  lemma ToFloatStoredImage<T(!new)>(imageToFloat: T -> T, image: T)
    ensures Call(ToFloat(imageToFloat, Some([IMAGE])), [image], None) == Success([imageToFloat(image)])
  {
    var r := Call(ToFloat(imageToFloat, Some([IMAGE])), [image], None);
    assert r.value == [imageToFloat(image)];
  }

  /** `Compose([ToFloat()])` applied to one image tagged `(IMAGE,)` yields a
      one-element list holding that transform's one-element output. */
  lemma ComposeOfToFloat<T(!new)>(imageToFloat: T -> T, image: T)
    ensures ComposeCall(Compose([ToFloat(imageToFloat, None)]), [image], Some([IMAGE]))
         == Success([[imageToFloat(image)]])
  {
    var t := ToFloat(imageToFloat, None);
    var inner := Call(t, [image], Some([IMAGE]));
    assert inner.value == [imageToFloat(image)];
    var r := ComposeCall(Compose([t]), [image], Some([IMAGE]));
    assert r.value == [inner.value];
  }
}
