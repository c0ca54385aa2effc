# Tag-dispatch transforms of jax-learn, modelled in Dafny

This project models the transform mechanism of `jax_learn/datamodule.py`.

- A `Desc` tag (`IMAGE` or `LABEL`) names the semantic kind of each item in a batch.
- A transform holds a `kinds` table from tag to handler. `do` applies the handler for an item's tag, or leaves the item unchanged when the tag has no entry.
- Calling a transform pairs items with the tags of a descriptor. The descriptor is the call-time one if truthy, else the one stored at construction. Python's `zip` drops whatever lies beyond the shorter of the two.
- With no truthy descriptor the call raises an error naming the transform's class.
- `Compose` is fan-out, not chaining. Every child gets the same original items and descriptor, and the outputs are collected in child order.
- `ToFloat` has a single `IMAGE` handler that converts an image to a unit-scaled float array.

Files:

- `wrappers.dfy` (module `Wrappers`): `Option` for Python's `None`, and `Result` for a value or a raised error.
- `zip.dfy` (module `PyList`): Python's `zip` and list comprehension over sequences.
- `transform.dfy` (module `Transform`): `Desc`, the `Transform` record, `Do`, and `Call`, which is `__call__`.
- `compose.dfy` (module `Composition`): `Compose` and its call.
- `tofloat.dfy` (module `ToFloatTransform`): the `ToFloat` constructor and its dispatch.

Modelling choices:

- Items have a generic type `T`. Handlers are total functions `T -> T`.
- A descriptor is `Option<seq<Desc>>`. "Falsy" means `None` or the empty sequence, as in Python.
- The array conversion `image_to_float` is a parameter `imageToFloat: T -> T` of `ToFloat`.
- A raised exception is a `Failure` carrying `EmptyDescriptor(className)`. `Message` renders it as `"<class> got empty descriptor"`.
- `Compose` fails as a whole when any child raises. The error is the first failing child's, because Python's list comprehension stops at the first exception. Children before it succeeded.
- `Composition.Collect` takes the outcomes of all children and keeps the first error. Python never calls the children after the one that raised. The model treats handlers as functions without side effects that always terminate, so child calls are pure and the two give the same result. This is a modelling assumption; see "## Left out".
- Nothing in `__call__` (lines 30-34) checks that the items and the descriptor have the same length. `zip` drops the extra items or tags, and `Transform.CallTruncates` states this.
- `Transform.DescOf` and `Transform.DescOfValue` model Python's lookup of an enum member by value, `Desc(n)`, for the values declared at lines 15-17. The transform code never does this lookup. These two members sit beside the core rather than in it.

## Model

| member | source | states |
|---|---|---|
| Transform.DescOf | jax_learn/datamodule.py:15-17 | looking up an enum value succeeds exactly for 1 and 2 and returns the member with that value; `Transform.DescOfValue` gives the round trip |
| Transform.DescOfValue | jax_learn/datamodule.py:15-17 | every tag is found again by its own enum value |
| Transform.Or | jax_learn/datamodule.py:31 | `a or b` is `a` when `a` is truthy and `b` otherwise, even when `b` is falsy; it is truthy iff either operand is |
| Transform.Message | jax_learn/datamodule.py:33 | the exception text starts with the class name and is longer than it |
| Transform.MessageNamesClass | jax_learn/datamodule.py:33 | two errors with the same text name the same class |
| Transform.Do | jax_learn/datamodule.py:25-28 | a tag absent from `kinds` returns the item unchanged (`noop`, line 19); a present tag returns `kinds[d](item)` |
| Transform.Call | jax_learn/datamodule.py:30-34 | fails iff both call-time and stored descriptors are falsy, with the class name; on success the output has min(items, tags) elements, element i being `do(items[i], tags[i])` for the chosen tags, in order |
| Transform.CallUsesGivenDescriptor | jax_learn/datamodule.py:31 | a truthy call-time descriptor is used as given; the stored descriptor does not affect the result |
| Transform.CallFallsBackToStored | jax_learn/datamodule.py:31 | a `None` or empty call-time descriptor gives the same result as passing the stored one |
| Transform.CallWithoutDescriptorFails | jax_learn/datamodule.py:32-33 | with neither descriptor truthy the call raises "<class> got empty descriptor" and yields no items |
| Transform.CallTruncates | jax_learn/datamodule.py:34 | extra items and extra tags are dropped without error: the call equals the call on the common prefix |
| Transform.BaseTransform | jax_learn/datamodule.py:21-23 | the base class is named `Transform`, stores no descriptor, and every tag dispatches to the identity |
| Transform.BaseTransformIsIdentity | jax_learn/datamodule.py:21-34 | the base class, with an empty `kinds`, returns the zip-truncated items unchanged |
| PyList.Zip | jax_learn/datamodule.py:34 | `zip` yields min(|xs|, |ys|) pairs, pair i being (xs[i], ys[i]) |
| PyList.MapSeq | jax_learn/datamodule.py:34 | the comprehension yields one result per element, result i being f of element i |
| PyList.ZipCommonPrefix | jax_learn/datamodule.py:34 | `zip` looks only at the common prefix of its arguments |
| Composition.Collect | jax_learn/datamodule.py:43 | collecting the children's outcomes gives, on success, exactly one value per child |
| Composition.CollectSucceeds | jax_learn/datamodule.py:43 | the comprehension over children succeeds iff no child's call raises |
| Composition.CollectOutputs | jax_learn/datamodule.py:43 | on success, value k is the value of child k's outcome, in child order |
| Composition.CollectFirstError | jax_learn/datamodule.py:43 | on failure the error is that of a failing child k, and all children before k succeeded |
| Composition.CollectAppend | jax_learn/datamodule.py:43 | collecting `a + b` gives `a`'s values followed by `b`'s; `a`'s error takes precedence over `b`'s |
| Composition.ComposeCall | jax_learn/datamodule.py:42-43 | `Compose` is fan-out: one result per child in child order, each computed from the original items and descriptor, never from another child's output; fails with the first failing child's error |
| Composition.ComposeAppend | jax_learn/datamodule.py:43 | composing `a + b` gives `a`'s outputs followed by `b`'s, and `a`'s error takes precedence over `b`'s |
| Composition.ComposeFalsyDescriptorUsesStored | jax_learn/datamodule.py:31-43 | `Compose` passes a falsy descriptor straight down, so each child's output is the one it gives with its own stored descriptor |
| ToFloatTransform.ToFloat | jax_learn/datamodule.py:47-49 | `ToFloat(descriptor)` is named `ToFloat`, stores the given descriptor, and dispatches `IMAGE` to the conversion and every other tag to the identity |
| ToFloatTransform.ToFloatDispatch | jax_learn/datamodule.py:47-48 | `ToFloat`'s `kinds` has `IMAGE` as its only key: `IMAGE` items are converted, `LABEL` items pass through unchanged |
| ToFloatTransform.ToFloatCall | jax_learn/datamodule.py:45-49 | a `ToFloat` call succeeds iff the call-time or default descriptor is truthy, else raises naming `ToFloat`; output i is the converted item for `IMAGE` tags and the item itself for `LABEL` tags |
| ToFloatTransform.ToFloatStoredImage | jax_learn/datamodule.py:47-49 | `ToFloat` built with descriptor `(IMAGE,)` and called without one converts its single image |
| ToFloatTransform.ComposeOfToFloat | jax_learn/datamodule.py:42-49 | `Compose([ToFloat()])` on one image tagged `(IMAGE,)` yields a list holding one list with the converted image |

## Left out

- The body of `image_to_float` (lines 51-52), a float32 cast and a division by 255, is left out because it is floating-point work of the numpy array library. It is the opaque parameter `imageToFloat`.
- The `dtype` class attribute (line 22) is left out. It only matters to numpy.
- `DataModule` (lines 55-56) is left out. It is an empty abstract class with no behaviour.
- The torch `Dataset`/`DataLoader` and fastcore imports (lines 11-12) are left out. The logic does not use them.
- The base `Transform` class has no `descriptor` attribute, so calling it with a falsy descriptor raises `AttributeError`. The model gives it `stored = None`, so that call raises the empty-descriptor error instead.
- The class-level mutable `kinds = {}` default (line 23) is modelled only as the empty table of the base class. Sharing between instances is Python object mechanics.
- `Compose` is itself a `Transform` subclass. Its inherited `do`, and nesting a `Compose` inside another `Compose`, are not modelled. Its output is a list of lists, not a list of items, so it cannot be a child of the same item type.
- `Compose.__call__` declares its `descriptor` with no default (line 42), unlike `Transform.__call__` (line 30). So `Compose(ts)(items)` raises `TypeError` in Python. The model has no omitted argument: an omitted `Compose` descriptor is modelled as an explicit `None`, which each child then treats as falsy.
- Handlers that raise or loop forever are not modelled. Handlers are total functions.
- Handlers are modelled as functions without side effects. In Python a `kinds` handler could change its item in place, because lists and numpy arrays are mutable. `Compose.__call__` (line 43) hands every child the same item objects, so a later child would then see an earlier child's change. Stopping at the first raise would also differ from computing every child's outcome. In-place mutation of items is not modelled. `ComposeCall`'s promise that no child sees another child's output, and the equivalence used by `Collect`, hold only for handlers without effects. `ToFloat`'s own handler builds a new array (line 52), so it is not affected.
