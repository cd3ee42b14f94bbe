/** Argument lookup and layout tagging on operators and nets
    (`ConverterUtil`, mace/python/tools/converter_tool/base_converter.py,
    lines 215-259).

    An operator (`OperatorDef`) and a net (`NetDef`) of the MACE protobuf
    schema both carry a repeated field `arg` of named arguments; this layer
    only ever touches that field and, in each argument, its `name` and its
    integer payload `i`. */
module ConverterUtil {
  import opened Wrappers
  import opened Enums

  /** One named integer argument (`mace_pb2.Argument`, fields `name` and `i`). */
  datatype Arg = Arg(name: string, i: int)

  /** The argument names `MaceKeyword.mace_data_format_str` and
      `MaceKeyword.mace_filter_format_str`. */
  const DataFormatKey: string := "data_format"
  const FilterFormatKey: string := "filter_format"

  /** An operator or a net, seen through its `arg` field, which the tagging
      operations extend in place. */
  class ArgHolder {
    var arg: seq<Arg>

    constructor (args: seq<Arg>)
      ensures arg == args
    {
      arg := args;
    }
  }

  /** What `get_arg` answers for an argument list: the first argument named
      `name`, or `None` when no argument has that name. */
  function Lookup(args: seq<Arg>, name: string): (r: Option<Arg>)
    ensures r.None? <==> forall j :: 0 <= j < |args| ==> args[j].name != name
    ensures r.Some? ==> r.value in args && r.value.name == name
  {
    if args == [] then None
    else if args[0].name == name then Some(args[0])
    else Lookup(args[1..], name)
  }

  /** Lookup is first-match: an argument with the name, preceded by none,
      is the one returned. */
  lemma {:induction false} LookupIsFirst(args: seq<Arg>, name: string, k: nat)
    requires k < |args| && args[k].name == name
    requires forall j :: 0 <= j < k ==> args[j].name != name
    ensures Lookup(args, name) == Some(args[k])
  {
    if k > 0 {
      assert args[0].name != name;
      LookupIsFirst(args[1..], name, k - 1);
    }
  }

  /** Appending an argument never hides an earlier match: the appended one
      is found only when no argument of that name was there before. */
  lemma {:induction false} LookupAppend(args: seq<Arg>, a: Arg, name: string)
    ensures Lookup(args + [a], name) ==
      if Lookup(args, name).Some? then Lookup(args, name)
      else if a.name == name then Some(a)
      else None
  {
    if args != [] {
      assert (args + [a])[1..] == args[1..] + [a];
      if args[0].name != name {
        LookupAppend(args[1..], a, name);
      }
    }
  }

  /** `get_arg(op, arg_name)`: scans `op.arg` front to back and returns the
      first argument named `argName`. */
  method GetArg(op: ArgHolder, argName: string) returns (r: Option<Arg>)
    ensures r == Lookup(op.arg, argName)
  {
    for k := 0 to |op.arg|
      invariant forall j :: 0 <= j < k ==> op.arg[j].name != argName
    {
      if op.arg[k].name == argName {
        LookupIsFirst(op.arg, argName, k);
        return Some(op.arg[k]);
      }
    }
    return None;
  }

  /** The argument `add_data_format_arg` appends. */
  function DataFormatArg(d: DataFormat): (a: Arg)
    ensures a.name == DataFormatKey && DataFormat.FromValue(a.i) == Some(d)
  {
    Arg(DataFormatKey, d.Value())
  }

  /** The argument `set_filter_format` appends. */
  function FilterFormatArg(f: FilterFormat): (a: Arg)
    ensures a.name == FilterFormatKey && FilterFormat.FromValue(a.i) == Some(f)
  {
    Arg(FilterFormatKey, f.Value())
  }

  /** `add_data_format_arg(op, data_format)`: appends one `data_format`
      argument holding the layout's value; earlier arguments stay as they
      were, even an earlier `data_format` argument. */
  method AddDataFormatArg(op: ArgHolder, dataFormat: DataFormat)
    modifies op
    ensures op.arg == old(op.arg) + [Arg(DataFormatKey, dataFormat.Value())]
  {
    op.arg := op.arg + [DataFormatArg(dataFormat)];
  }

  /** `set_filter_format(net, filter_format)`: appends one `filter_format`
      argument; it does not replace an earlier one. */
  method SetFilterFormat(net: ArgHolder, filterFormat: FilterFormat)
    modifies net
    ensures net.arg == old(net.arg) + [Arg(FilterFormatKey, filterFormat.Value())]
  {
    net.arg := net.arg + [FilterFormatArg(filterFormat)];
  }

  /** `data_format(op)`: decodes the first `data_format` argument; `None`
      when there is none or when its value is neither NHWC's nor NCHW's. */
  function DataFormatOf(args: seq<Arg>): (r: Option<DataFormat>)
    ensures Lookup(args, DataFormatKey).None? ==> r.None?
    ensures Lookup(args, DataFormatKey).Some? ==>
              r == DataFormat.FromValue(Lookup(args, DataFormatKey).value.i)
  {
    match Lookup(args, DataFormatKey)
    case None => None
    case Some(a) =>
      if a.i == NHWC.Value() then Some(NHWC)
      else if a.i == NCHW.Value() then Some(NCHW)
      else None
  }

  /** `filter_format(net)`: decodes the first `filter_format` argument;
      `filter_format` tests HWIO, then HWOI, then OIHW; `None` when there is no such
      argument or its value is none of the three. */
  function FilterFormatOf(args: seq<Arg>): (r: Option<FilterFormat>)
    ensures Lookup(args, FilterFormatKey).None? ==> r.None?
    ensures Lookup(args, FilterFormatKey).Some? ==>
              r == FilterFormat.FromValue(Lookup(args, FilterFormatKey).value.i)
  {
    match Lookup(args, FilterFormatKey)
    case None => None
    case Some(a) =>
      if a.i == HWIO.Value() then Some(HWIO)
      else if a.i == HWOI.Value() then Some(HWOI)
      else if a.i == OIHW.Value() then Some(OIHW)
      else None
  }

  /** Tagging an untagged argument list with a layout and reading the layout
      back gives that layout. */
  lemma DataFormatRoundTrip(args: seq<Arg>, d: DataFormat)
    requires Lookup(args, DataFormatKey).None?
    ensures DataFormatOf(args + [DataFormatArg(d)]) == Some(d)
  {
    LookupAppend(args, DataFormatArg(d), DataFormatKey);
  }

  lemma FilterFormatRoundTrip(args: seq<Arg>, f: FilterFormat)
    requires Lookup(args, FilterFormatKey).None?
    ensures FilterFormatOf(args + [FilterFormatArg(f)]) == Some(f)
  {
    LookupAppend(args, FilterFormatArg(f), FilterFormatKey);
  }

  /** Tagging again does not change what is read back: the first tag keeps
      answering, whatever later tags say. */
  lemma DataFormatRetag(args: seq<Arg>, d: DataFormat)
    requires Lookup(args, DataFormatKey).Some?
    ensures DataFormatOf(args + [DataFormatArg(d)]) == DataFormatOf(args)
  {
    LookupAppend(args, DataFormatArg(d), DataFormatKey);
  }

  lemma FilterFormatRetag(args: seq<Arg>, f: FilterFormat)
    requires Lookup(args, FilterFormatKey).Some?
    ensures FilterFormatOf(args + [FilterFormatArg(f)]) == FilterFormatOf(args)
  {
    LookupAppend(args, FilterFormatArg(f), FilterFormatKey);
  }

  /** Two `set_filter_format` calls on an untagged net: the first wins. */
  lemma FilterFormatTwiceKeepsFirst(args: seq<Arg>, f1: FilterFormat, f2: FilterFormat)
    requires Lookup(args, FilterFormatKey).None?
    ensures FilterFormatOf(args + [FilterFormatArg(f1)] + [FilterFormatArg(f2)]) == Some(f1)
  {
    FilterFormatRoundTrip(args, f1);
    LookupAppend(args, FilterFormatArg(f1), FilterFormatKey);
    FilterFormatRetag(args + [FilterFormatArg(f1)], f2);
  }

  /** Tagging one layout does not disturb the other. */
  lemma TagsIndependent(args: seq<Arg>, d: DataFormat, f: FilterFormat)
    ensures FilterFormatOf(args + [DataFormatArg(d)]) == FilterFormatOf(args)
    ensures DataFormatOf(args + [FilterFormatArg(f)]) == DataFormatOf(args)
  {
    LookupAppend(args, DataFormatArg(d), FilterFormatKey);
    LookupAppend(args, FilterFormatArg(f), DataFormatKey);
  }

  /** The same story told with the in-place operations on a net. */
  method TagNetTwice(net: ArgHolder, f1: FilterFormat, f2: FilterFormat) returns (r: Option<FilterFormat>)
    requires Lookup(net.arg, FilterFormatKey).None?
    modifies net
    ensures r == Some(f1)
  {
    SetFilterFormat(net, f1);
    SetFilterFormat(net, f2);
    FilterFormatTwiceKeepsFirst(old(net.arg), f1, f2);
    r := FilterFormatOf(net.arg);
  }
}
