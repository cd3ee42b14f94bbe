# MACE converter argument and option layer, in Dafny

This project models the small argument/option layer that MACE's model
converter (`mace/python/tools/converter_tool/base_converter.py`) builds
its graph transformations on:

- the integer-coded enumerations `DataFormat`, `FilterFormat`,
  `PaddingMode`, `PoolingType`, `ActivationType`, `EltwiseType`, and the
  string-valued `MaceOp` over the 32-name catalogue `MaceSupportedOps`
  (`enums.dfy`, module `Enums`);
- `ConverterUtil`: an operator or net seen through its repeated `arg`
  field of named integer arguments, the first-match lookup `get_arg`, the
  tagging operations `add_data_format_arg` and `set_filter_format` that
  append to that field in place, and the decoders `data_format` and
  `filter_format` (`converter_util.dfy`);
- `NodeInfo` and `ConverterOption`: classes whose setters update fields
  and whose two node dictionaries are keyed by node name
  (`converter_options.dfy`, module `ConverterOptions`).

`wrappers.dfy` holds `Option`, which stands for Python's `None`.

How the source's forms are rendered:

- Python's `Enum(v)` raises `ValueError` for a value outside the
  enumeration; `FromValue(v)` returns `None` there instead. The decoders
  `data_format` and `filter_format` do not call `Enum(v)`: they compare
  the stored integer with each member's `.value` and return `None` when
  none matches, and `DataFormatOf`/`FilterFormatOf` are proved to agree
  with `FromValue`.
- `op.arg.add()` followed by setting `name` and `i` is one append of
  `Arg(name, i)` to the `arg` sequence of an `ArgHolder` object.
- `get_arg` is a `for` loop that returns early; it is the method
  `GetArg`, proved equal to the recursive function `Lookup`, about which
  the first-match lemmas are stated. `data_format` and `filter_format`
  only read, so they are functions over the argument sequence.
- The node dictionaries are `map<Option<string>, NodeInfo>`: the key is
  `node.name`, which is `None` until a name is assigned, and the values
  are the node objects themselves, so a node changed after insertion is
  changed in the dictionary too.

Repeated tagging and repeated insertion:

- Tagging twice does not replace the tag. `set_filter_format` and
  `add_data_format_arg` append, and `get_arg` returns the first match, so
  after two tags the decoder still reports the first one
  (`FilterFormatTwiceKeepsFirst`, `DataFormatRetag`, `FilterFormatRetag`):
  a second tag is never read back.
- The catalogue has 32 names (lines 50-83).
- The `input_nodes` and `output_nodes` setters add to the existing
  dictionary without clearing it, and a later node with a name already
  present replaces the earlier one (`InsertAllLastWins`,
  `InsertAllOtherKeys`). The `output_nodes` setter goes through the
  `output_nodes` getter, which returns the same dictionary, so it behaves
  like the `input_nodes` setter.

## Model

| member | source | states |
|---|---|---|
| `Enums.DataFormat.Value` | mace/python/tools/converter_tool/base_converter.py:6-8 | NHWC and NCHW carry codes within 0..1 |
| `Enums.DataFormat.FromValue` | mace/python/tools/converter_tool/base_converter.py:6-8 | decoding is defined exactly for codes 0 and 1, and a decoded member carries the code it was decoded from |
| `Enums.DataFormatCoding` | mace/python/tools/converter_tool/base_converter.py:6-8 | every member decodes back from its code; distinct members have distinct codes |
| `Enums.FilterFormat.Value` | mace/python/tools/converter_tool/base_converter.py:11-14 | HWIO, OIHW, HWOI carry codes within 0..2 |
| `Enums.FilterFormat.FromValue` | mace/python/tools/converter_tool/base_converter.py:11-14 | decoding is defined exactly for codes 0..2, and gives back the member with that code |
| `Enums.FilterFormatCoding` | mace/python/tools/converter_tool/base_converter.py:11-14 | round trip from member to code and back; codes are pairwise distinct |
| `Enums.PaddingMode.Value` | mace/python/tools/converter_tool/base_converter.py:17-20 | VALID, SAME, FULL carry codes within 0..2 |
| `Enums.PaddingMode.FromValue` | mace/python/tools/converter_tool/base_converter.py:17-20 | decoding is defined exactly for codes 0..2, and gives back the member with that code |
| `Enums.PaddingModeCoding` | mace/python/tools/converter_tool/base_converter.py:17-20 | round trip from member to code and back; codes are pairwise distinct |
| `Enums.PoolingType.Value` | mace/python/tools/converter_tool/base_converter.py:23-25 | AVG and MAX carry codes within 1..2 (the one enumeration not starting at 0) |
| `Enums.PoolingType.FromValue` | mace/python/tools/converter_tool/base_converter.py:23-25 | decoding is defined exactly for codes 1 and 2; 0 is not a pooling type |
| `Enums.PoolingTypeCoding` | mace/python/tools/converter_tool/base_converter.py:23-25 | round trip from member to code and back; codes are pairwise distinct |
| `Enums.ActivationType.Value` | mace/python/tools/converter_tool/base_converter.py:28-34 | the six activations carry codes within 0..5 |
| `Enums.ActivationType.FromValue` | mace/python/tools/converter_tool/base_converter.py:28-34 | decoding is defined exactly for codes 0..5, and gives back the member with that code |
| `Enums.ActivationTypeCoding` | mace/python/tools/converter_tool/base_converter.py:28-34 | round trip from member to code and back; codes are pairwise distinct |
| `Enums.EltwiseType.Value` | mace/python/tools/converter_tool/base_converter.py:37-47 | the ten element-wise kinds carry codes within 0..9 |
| `Enums.EltwiseType.FromValue` | mace/python/tools/converter_tool/base_converter.py:37-47 | decoding is defined exactly for codes 0..9, and gives back the member with that code |
| `Enums.EltwiseTypeCoding` | mace/python/tools/converter_tool/base_converter.py:37-47 | round trip from member to code and back; codes are pairwise distinct |
| `Enums.MaceOp.Value` | mace/python/tools/converter_tool/base_converter.py:85 | every operator's value is a name in `MaceSupportedOps` |
| `Enums.MaceOp.FromValue` | mace/python/tools/converter_tool/base_converter.py:50-85 | a string names an operator exactly when it is in the catalogue, and the operator found has that string as its value |
| `Enums.CatalogueDistinct` | mace/python/tools/converter_tool/base_converter.py:50-83 | the catalogue has 32 names, none of them twice |
| `Enums.MaceOpCoding` | mace/python/tools/converter_tool/base_converter.py:50-85 | distinct operators have distinct values; every operator decodes back from its value |
| `ConverterUtil.Lookup` | mace/python/tools/converter_tool/base_converter.py:217-221 | the answer is `None` exactly when no argument has the name; otherwise it is an argument of the list with that name |
| `ConverterUtil.LookupIsFirst` | mace/python/tools/converter_tool/base_converter.py:218-220 | first match: an argument with the name preceded by none with that name is the one returned |
| `ConverterUtil.LookupAppend` | mace/python/tools/converter_tool/base_converter.py:218-221 | appending an argument leaves an existing match in place; the appended one is found only when there was no match before |
| `ConverterUtil.GetArg` | mace/python/tools/converter_tool/base_converter.py:217-221 | the front-to-back scan with early return computes exactly `Lookup` of the operator's arguments |
| `ConverterUtil.DataFormatArg` | mace/python/tools/converter_tool/base_converter.py:225-227 | the appended argument is named `data_format` and its integer decodes to the given layout |
| `ConverterUtil.FilterFormatArg` | mace/python/tools/converter_tool/base_converter.py:243-245 | the appended argument is named `filter_format` and its integer decodes to the given layout |
| `ConverterUtil.AddDataFormatArg` | mace/python/tools/converter_tool/base_converter.py:224-227 | exactly one argument (`data_format`, the layout's value) is appended; every earlier argument stays, in order |
| `ConverterUtil.SetFilterFormat` | mace/python/tools/converter_tool/base_converter.py:242-245 | exactly one argument (`filter_format`, the layout's value) is appended; an earlier tag is not replaced |
| `ConverterUtil.DataFormatOf` | mace/python/tools/converter_tool/base_converter.py:230-239 | `None` without a `data_format` argument; otherwise the first such argument's code decoded, `None` for codes other than 0 and 1; total |
| `ConverterUtil.FilterFormatOf` | mace/python/tools/converter_tool/base_converter.py:248-259 | `None` without a `filter_format` argument; otherwise the first one's code decoded (the HWIO, HWOI, OIHW test order agrees with the enumeration), `None` outside 0..2; total |
| `ConverterUtil.DataFormatRoundTrip` | mace/python/tools/converter_tool/base_converter.py:224-239 | on untagged arguments, tagging with a layout and reading it back gives that layout, for NHWC and NCHW |
| `ConverterUtil.FilterFormatRoundTrip` | mace/python/tools/converter_tool/base_converter.py:242-259 | on an untagged net, tagging with a filter layout and reading it back gives that layout, for all three |
| `ConverterUtil.DataFormatRetag` | mace/python/tools/converter_tool/base_converter.py:224-239 | once tagged, a further `data_format` tag does not change what is read |
| `ConverterUtil.FilterFormatRetag` | mace/python/tools/converter_tool/base_converter.py:242-259 | once tagged, a further `filter_format` tag does not change what is read |
| `ConverterUtil.FilterFormatTwiceKeepsFirst` | mace/python/tools/converter_tool/base_converter.py:242-259 | two tags on an untagged net: the first layout is the one read back |
| `ConverterUtil.TagsIndependent` | mace/python/tools/converter_tool/base_converter.py:224-259 | a `data_format` tag does not change the filter layout read, and a `filter_format` tag does not change the data layout read |
| `ConverterUtil.TagNetTwice` | mace/python/tools/converter_tool/base_converter.py:242-259 | the in-place calls `set_filter_format` twice then `filter_format` on an untagged net yield the first layout |
| `ConverterOptions.NodeInfo.constructor` | mace/python/tools/converter_tool/base_converter.py:132-134 | a fresh node has no name and an empty shape |
| `ConverterOptions.NodeInfo.SetName` | mace/python/tools/converter_tool/base_converter.py:144-146 | sets the name and leaves the shape |
| `ConverterOptions.NodeInfo.SetShape` | mace/python/tools/converter_tool/base_converter.py:148-150 | sets the shape and leaves the name |
| `ConverterOptions.InsertAllKeys` | mace/python/tools/converter_tool/base_converter.py:186-189 | inserting a list of nodes in order: the keys afterwards are the old keys plus the names of the listed nodes |
| `ConverterOptions.InsertAllLastWins` | mace/python/tools/converter_tool/base_converter.py:186-189 | a name is bound to the last listed node carrying it; a later duplicate overwrites an earlier one |
| `ConverterOptions.InsertAllOtherKeys` | mace/python/tools/converter_tool/base_converter.py:186-189 | a name no listed node carries keeps its old binding, or stays absent |
| `ConverterOptions.ConverterOption.constructor` | mace/python/tools/converter_tool/base_converter.py:159-164 | fresh options: both node dictionaries empty, data type `DT_FLOAT`, device `CPU`, Winograd off |
| `ConverterOptions.ConverterOption.AddInputNode` | mace/python/tools/converter_tool/base_converter.py:191-192 | binds the node's name to the node in the input dictionary; every other key and field unchanged |
| `ConverterOptions.ConverterOption.AddOutputNode` | mace/python/tools/converter_tool/base_converter.py:199-200 | binds the node's name to the node in the output dictionary; every other key and field unchanged |
| `ConverterOptions.ConverterOption.SetInputNodes` | mace/python/tools/converter_tool/base_converter.py:186-189 | the loop inserts the nodes in list order into the existing input dictionary (`InsertAll`); nothing else changes |
| `ConverterOptions.ConverterOption.SetOutputNodes` | mace/python/tools/converter_tool/base_converter.py:194-197 | the loop inserts the nodes in list order into the existing output dictionary (`InsertAll`); nothing else changes |
| `ConverterOptions.ConverterOption.SetDataType` | mace/python/tools/converter_tool/base_converter.py:202-204 | sets the data type; every other field unchanged |
| `ConverterOptions.ConverterOption.SetDevice` | mace/python/tools/converter_tool/base_converter.py:206-208 | sets the device; every other field unchanged |
| `ConverterOptions.ConverterOption.SetWinogradEnabled` | mace/python/tools/converter_tool/base_converter.py:210-212 | sets the Winograd toggle; every other field unchanged |

## Left out

- `ConverterOption.AddInputNode` / `AddOutputNode` / `SetInputNodes` / `SetOutputNodes`: dictionary iteration order is not modelled; Python dictionaries keep insertion order (a re-inserted name keeps its first position), while `NodeMap` is an unordered `map`.
- `NodeInfo.SetShape`: the shape list is copied, not aliased; in Python the node stores the caller's list object, so a later change to that list shows through the node, while `seq<int>` is a value.
- `mace_pb2`, the generated protobuf module, is not part of this model: `DT_FLOAT` and `CPU` are opaque constructors of `DataType` and `DeviceType`, with one "other" constructor each for the remaining values, whose numeric codes are not modelled.
- Of a protobuf `Argument` only `name` and the integer `i` are modelled; its other payload fields are never touched by this layer. `i` is an unbounded integer; the 64-bit width of the protobuf field is not modelled, since the layer only stores and compares small codes.
- The read-only properties (`name`, `shape`, `input_nodes`, `data_type`, …) are plain field reads of the classes and have no members of their own. The `input_nodes` and `output_nodes` getters hand out the live dictionaries in Python, so a caller can change a `ConverterOption` through them; reading the `map` fields here gives a value, and such changes are not modelled.
- `ConverterUtil.GetArg`: returns a copy of the first matching argument; in Python `get_arg` returns the stored message, and a change made through it shows in `op.arg`. The readers in this layer (`data_format`, `filter_format`) only read the result, so none of their properties depends on this.
- `NodeInfo.__str__` (lines 152-153): string formatting with nothing to state.
- `ConverterInterface.run` (lines 125-126): an abstract stub that only raises `NotImplementedError`.
- `MaceKeyword` (lines 88-119): string constants without behaviour; only `data_format` and `filter_format` are used, as `DataFormatKey` and `FilterFormatKey`.
- Python's dynamic typing: the setters accept values of any type in Python; the model gives names type `string`, shapes `seq<int>`, and the option fields their own types.
- Python's `Enum(v)` raising `ValueError` is rendered as a `None` result of `FromValue`, not as an exception.
- mace/ops/arm/fp32/deconv_2d.h and mace/core/workspace.h are not part of this model: the first is a floating-point deconvolution kernel, the second tensor storage and allocation, and neither has its bodies in the visible source.
