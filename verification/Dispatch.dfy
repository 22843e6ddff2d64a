/** `dispatch` and `_to_wire` of core/runtime/pyclient/__init__.py: what a handler is called with, and
    what becomes of the value it returns. */
module Dispatch {
  import opened Common

  /** Python values as the wire conversion tells them apart. `Model` is an object with a `__dict__`,
      `Other` anything else, with its `str()`. Sets list their elements in iteration order. */
  datatype Value =
    | Null
    | Bool(b: bool)
    | Int(i: int)
    | Float(r: real)
    | Str(s: string)
    | Raw(bytes: Bytes)
    | Dict(items: seq<Item>)
    | List(elements: seq<Value>)
    | Tuple(elements: seq<Value>)
    | Set(elements: seq<Value>)
    | Model(fields: seq<Item>)
    | Other(text: string)

  datatype Item = Item(key: Value, value: Value)

  predicate Private(key: Value) { key.Str? && key.s != "" && key.s[0] == '_' }

  function ToWire(v: Value): Value {
    match v
    case Dict(items) => Dict(WireItems(items, false))
    case List(elements) => List(WireAll(elements))
    case Tuple(elements) => List(WireAll(elements))
    case Set(elements) => List(WireAll(elements))
    case Model(fields) => Dict(WireItems(fields, true))
    case Other(text) => Str(text)
    case _ => v
  }

  function WireAll(values: seq<Value>): seq<Value> {
    if values == [] then [] else [ToWire(values[0])] + WireAll(values[1..])
  }

  /** Keys are kept as they are; private ones are dropped from objects, not from dicts. */
  function WireItems(items: seq<Item>, publicOnly: bool): seq<Item> {
    if items == [] then []
    else
      var first, rest := items[0], WireItems(items[1..], publicOnly);
      assert first.value < first;
      if publicOnly && Private(first.key) then rest else [Item(first.key, ToWire(first.value))] + rest
  }

  /** How deep the packer nests, and how long a text, a byte string or a container can be. */
  const NEST_LIMIT := 511
  const SIZE_LIMIT := 0x1_0000_0000

  function Utf8Size(s: string): nat {
    if s == "" then 0
    else
      var c := s[0] as int;
      (if c < 0x80 then 1 else if c < 0x800 then 2 else if c < 0x1_0000 then 3 else 4) + Utf8Size(s[1..])
  }

  /** What MessagePack can encode with `room` more levels of nesting. */
  ghost predicate PackableWithin(v: Value, room: int) {
    room >= 0 &&
    match v
    case Int(i) => -0x8000_0000_0000_0000 <= i < 0x1_0000_0000_0000_0000
    case Str(s) => Utf8Size(s) < SIZE_LIMIT
    case Raw(bytes) => |bytes| < SIZE_LIMIT
    case Dict(items) =>
      |items| < SIZE_LIMIT && forall item :: item in items ==>
        PackableWithin(item.key, room - 1) && PackableWithin(item.value, room - 1)
    case List(elements) => |elements| < SIZE_LIMIT && forall e :: e in elements ==> PackableWithin(e, room - 1)
    case Tuple(elements) => |elements| < SIZE_LIMIT && forall e :: e in elements ==> PackableWithin(e, room - 1)
    case Set(_) => false
    case Model(_) => false
    case Other(_) => false
    case _ => true
  }

  /** The fields the conversion looks at. */
  function Shown(items: seq<Item>, publicOnly: bool): seq<Item> {
    if items == [] then []
    else (if publicOnly && Private(items[0].key) then [] else [items[0]]) + Shown(items[1..], publicOnly)
  }

  /** Can the value be sent once converted, with `room` levels of nesting? Dict keys are not converted,
      so they have to be packable as they are; private fields of objects do not matter. */
  ghost predicate SendableWithin(v: Value, room: int) {
    room >= 0 &&
    match v
    case Int(i) => -0x8000_0000_0000_0000 <= i < 0x1_0000_0000_0000_0000
    case Str(s) => Utf8Size(s) < SIZE_LIMIT
    case Raw(bytes) => |bytes| < SIZE_LIMIT
    case Dict(items) =>
      |items| < SIZE_LIMIT && forall item :: item in items ==>
        PackableWithin(item.key, room - 1) && SendableWithin(item.value, room - 1)
    case List(elements) => |elements| < SIZE_LIMIT && forall e :: e in elements ==> SendableWithin(e, room - 1)
    case Tuple(elements) => |elements| < SIZE_LIMIT && forall e :: e in elements ==> SendableWithin(e, room - 1)
    case Set(elements) => |elements| < SIZE_LIMIT && forall e :: e in elements ==> SendableWithin(e, room - 1)
    case Model(fields) =>
      |Shown(fields, true)| < SIZE_LIMIT &&
      forall item :: item in fields && !Private(item.key) ==>
        PackableWithin(item.key, room - 1) && SendableWithin(item.value, room - 1)
    case Other(text) => Utf8Size(text) < SIZE_LIMIT
    case _ => true
  }

  /** Only the containers the wire has, at every level. */
  predicate Plain(v: Value) {
    match v
    case Dict(items) => forall i :: 0 <= i < |items| ==> Plain(items[i].value)
    case List(elements) => forall i :: 0 <= i < |elements| ==> Plain(elements[i])
    case Tuple(_) => false
    case Set(_) => false
    case Model(_) => false
    case Other(_) => false
    case _ => true
  }

  /** The conversion does what it is for on exactly the sendable values, at every depth: it neither adds
      nor removes a level. */
  lemma {:induction false} WirePackableIff(v: Value, room: int)
    ensures PackableWithin(ToWire(v), room) <==> SendableWithin(v, room)
    decreases v, 0
  {
    match v
    case Dict(items) => DictPackableIff(items, room);
    case List(elements) => AllPackableIff(elements, room - 1);
    case Tuple(elements) => AllPackableIff(elements, room - 1);
    case Set(elements) => AllPackableIff(elements, room - 1);
    case Model(fields) => ModelPackableIff(fields, room);
    case _ =>
  }

  lemma {:induction false} DictPackableIff(items: seq<Item>, room: int)
    ensures PackableWithin(ToWire(Dict(items)), room) <==> SendableWithin(Dict(items), room)
    decreases items, 1
  {
    ItemsPackableIff(items, false, room - 1);
    assert forall item :: item in items ==>
      (ItemSendable(item, false, room - 1) <==>
       PackableWithin(item.key, room - 1) && SendableWithin(item.value, room - 1));
  }

  lemma {:induction false} ModelPackableIff(fields: seq<Item>, room: int)
    ensures PackableWithin(ToWire(Model(fields)), room) <==> SendableWithin(Model(fields), room)
    decreases fields, 1
  {
    ItemsPackableIff(fields, true, room - 1);
  }

  lemma {:induction false} AllPackableIff(values: seq<Value>, room: int)
    ensures |WireAll(values)| == |values|
    ensures (forall w :: w in WireAll(values) ==> PackableWithin(w, room))
      <==> (forall v :: v in values ==> SendableWithin(v, room))
    decreases values, 0
  {
    if values != [] {
      WirePackableIff(values[0], room);
      AllPackableIff(values[1..], room);
      assert values == [values[0]] + values[1..];
    }
  }

  ghost predicate ItemPackable(item: Item, room: int) {
    PackableWithin(item.key, room) && PackableWithin(item.value, room)
  }

  ghost predicate ItemSendable(item: Item, publicOnly: bool, room: int) {
    !(publicOnly && Private(item.key)) ==> PackableWithin(item.key, room) && SendableWithin(item.value, room)
  }

  lemma {:induction false} ItemsPackableIff(items: seq<Item>, publicOnly: bool, room: int)
    ensures |WireItems(items, publicOnly)| == |Shown(items, publicOnly)|
    ensures !publicOnly ==> |Shown(items, publicOnly)| == |items|
    ensures (forall w :: w in WireItems(items, publicOnly) ==> ItemPackable(w, room)) <==>
            (forall item :: item in items ==> ItemSendable(item, publicOnly, room))
    decreases items, 0
  {
    if items != [] {
      var first := items[0];
      assert first.value < first;
      WirePackableIff(first.value, room);
      ItemsPackableIff(items[1..], publicOnly, room);
      assert items == [first] + items[1..];
      if publicOnly && Private(first.key) {
        assert ItemSendable(first, publicOnly, room);
      } else {
        var wired := Item(first.key, ToWire(first.value));
        assert WireItems(items, publicOnly) == [wired] + WireItems(items[1..], publicOnly);
        assert ItemPackable(wired, room) <==> ItemSendable(first, publicOnly, room);
        assert wired in WireItems(items, publicOnly);
      }
    }
  }

  // ---- What the conversion does to each kind of value ----

  /** Lists, tuples and sets become lists of their converted elements, in order; dicts keep their keys;
      what has no `__dict__` becomes its text. */
  lemma WireElementwise(v: Value)
    ensures v.List? || v.Tuple? || v.Set? ==>
      && ToWire(v).List? && |ToWire(v).elements| == |v.elements|
      && forall i :: 0 <= i < |v.elements| ==> ToWire(v).elements[i] == ToWire(v.elements[i])
    ensures v.Dict? ==>
      && ToWire(v).Dict? && |ToWire(v).items| == |v.items|
      && forall i :: 0 <= i < |v.items| ==> ToWire(v).items[i] == Item(v.items[i].key, ToWire(v.items[i].value))
    ensures v.Other? ==> ToWire(v) == Str(v.text)
  {
    if v.List? || v.Tuple? || v.Set? { WireAllAt(v.elements); }
    if v.Dict? { WireItemsAt(v.items); }
  }

  lemma {:induction false} WireAllAt(values: seq<Value>)
    ensures |WireAll(values)| == |values| && forall i :: 0 <= i < |values| ==> WireAll(values)[i] == ToWire(values[i])
  {
    if values != [] { WireAllAt(values[1..]); }
  }

  lemma {:induction false} WireItemsAt(items: seq<Item>)
    ensures var wired := WireItems(items, false);
      |wired| == |items| && forall i :: 0 <= i < |items| ==> wired[i] == Item(items[i].key, ToWire(items[i].value))
  {
    if items != [] { WireItemsAt(items[1..]); }
  }

  /** An object becomes a dict, field by field: a field whose name starts with an underscore is left out, any
      other one is kept in its place with its value converted. */
  lemma {:induction false} WireOfModel(before: seq<Item>, field: Item, after: seq<Item>)
    ensures ToWire(Model(before + [field] + after)).Dict? && ToWire(Model(before)).Dict? && ToWire(Model(after)).Dict?
    ensures ToWire(Model(before + [field] + after)).items ==
      ToWire(Model(before)).items
      + (if field.key.Str? && field.key.s != "" && field.key.s[0] == '_' then []
         else [Item(field.key, ToWire(field.value))])
      + ToWire(Model(after)).items
  {
    WireItemsAppend(before + [field], after, true);
    WireItemsAppend(before, [field], true);
    assert [field][1..] == [] && field.value < field;
  }

  lemma {:induction false} WireItemsAppend(a: seq<Item>, b: seq<Item>, publicOnly: bool)
    ensures WireItems(a + b, publicOnly) == WireItems(a, publicOnly) + WireItems(b, publicOnly)
    decreases |a|
  {
    if a == [] {
      assert a + b == b;
    } else {
      assert (a + b)[1..] == a[1..] + b;
      WireItemsAppend(a[1..], b, publicOnly);
    }
  }

  /** The response frame around a converted result. */
  function Envelope(result: Value): Value {
    Dict([Item(Str("result"), ToWire(result)), Item(Str("error"), Null)])
  }

  /** A handler's reply can be packed exactly if the result is sendable one level below the packer's
      limit. */
  lemma ReplyPackableIff(result: Value)
    ensures PackableWithin(Envelope(result), NEST_LIMIT) <==> SendableWithin(result, NEST_LIMIT - 1)
  {
    WirePackableIff(result, NEST_LIMIT - 1);
    TwoItems(Item(Str("result"), ToWire(result)), Item(Str("error"), Null), NEST_LIMIT);
    Utf8SizeBound("result");
    Utf8SizeBound("error");
  }

  lemma TwoItems(a: Item, b: Item, room: int)
    ensures PackableWithin(Dict([a, b]), room) <==> room >= 0 && ItemPackable(a, room - 1) && ItemPackable(b, room - 1)
  {
    var items := [a, b];
    assert items[0] in items && items[1] in items;
    assert forall item :: item in items ==> item == a || item == b;
  }

  lemma {:induction false} Utf8SizeBound(s: string)
    ensures Utf8Size(s) <= 4 * |s|
  {
    if s != "" { Utf8SizeBound(s[1..]); }
  }

  // ---- The length of a packed reply ----

  /** The bytes of a head whose short form holds lengths up to `short`, with or without a one-byte form. */
  function HeadSize(n: nat, short: nat, oneByte: bool): nat {
    if n <= short then 1 else if oneByte && n < 0x100 then 2 else if n < 0x1_0000 then 3 else 5
  }

  function BytesHeadSize(n: nat): nat { if n < 0x100 then 2 else if n < 0x1_0000 then 3 else 5 }

  function IntSize(i: int): nat {
    if -32 <= i < 0x80 then 1
    else if -0x80 <= i < 0x100 then 2
    else if -0x8000 <= i < 0x1_0000 then 3
    else if -0x8000_0000 <= i < 0x1_0000_0000 then 5 else 9
  }

  /** The length of a packable value in MessagePack. */
  function PackedSize(v: Value): nat {
    match v
    case Int(i) => IntSize(i)
    case Float(_) => 9
    case Str(s) => HeadSize(Utf8Size(s), 31, true) + Utf8Size(s)
    case Raw(bytes) => BytesHeadSize(|bytes|) + |bytes|
    case Dict(items) => HeadSize(|items|, 15, false) + ItemsSize(items)
    case List(elements) => HeadSize(|elements|, 15, false) + AllSize(elements)
    case Tuple(elements) => HeadSize(|elements|, 15, false) + AllSize(elements)
    case _ => 1
  }

  function AllSize(values: seq<Value>): nat {
    if values == [] then 0 else PackedSize(values[0]) + AllSize(values[1..])
  }

  function ItemsSize(items: seq<Item>): nat {
    if items == [] then 0
    else
      var first := items[0];
      assert first.key < first && first.value < first;
      PackedSize(first.key) + PackedSize(first.value) + ItemsSize(items[1..])
  }

  /** The lengths of the values that hold no others, as the MessagePack specification gives them for its formats. */
  lemma ScalarLengths(i: int, x: real, b: bool, s: string, bytes: Bytes)
    ensures PackedSize(Int(i)) ==
      if -32 <= i <= 127 then 1 else if -128 <= i <= 255 then 2 else if -32_768 <= i <= 65_535 then 3
      else if -2_147_483_648 <= i <= 4_294_967_295 then 5 else 9
    ensures PackedSize(Null) == 1 && PackedSize(Bool(b)) == 1 && PackedSize(Float(x)) == 9
    ensures var n := Utf8Size(s);
      PackedSize(Str(s)) == n + if n <= 31 then 1 else if n <= 255 then 2 else if n <= 65_535 then 3 else 5
    ensures var n := |bytes|;
      PackedSize(Raw(bytes)) == n + if n <= 255 then 2 else if n <= 65_535 then 3 else 5
  {
  }

  /** A text is as long as its characters, and each of them takes one to four bytes. */
  lemma {:induction false} Utf8Lengths(s: string, c: char)
    ensures Utf8Size("") == 0
    ensures Utf8Size(s + [c]) == Utf8Size(s) +
      if c as int <= 127 then 1 else if c as int <= 2047 then 2 else if c as int <= 65_535 then 3 else 4
  {
    if s == "" {
      assert "" + [c] == [c] && [c][1..] == "";
    } else {
      assert (s + [c])[1..] == s[1..] + [c];
      Utf8Lengths(s[1..], c);
    }
  }

  /** A list is as long as its elements, and its head grows with the sixteenth and the 65536th one; a tuple is as
      long as the list. */
  lemma ListGrows(elements: seq<Value>, e: Value)
    ensures PackedSize(List([])) == 1 && PackedSize(Tuple(elements)) == PackedSize(List(elements))
    ensures PackedSize(List(elements + [e])) == PackedSize(List(elements)) + PackedSize(e) +
      if |elements| == 15 || |elements| == 65_535 then 2 else 0
  {
    AllSizeAppend(elements, e);
  }

  lemma {:induction false} AllSizeAppend(values: seq<Value>, v: Value)
    ensures AllSize(values + [v]) == AllSize(values) + PackedSize(v)
  {
    if values == [] {
      assert [] + [v] == [v] && [v][1..] == [];
    } else {
      assert (values + [v])[1..] == values[1..] + [v];
      AllSizeAppend(values[1..], v);
    }
  }

  /** A dict is as long as its keys and values, and its head grows at the same counts. */
  lemma DictGrows(items: seq<Item>, item: Item)
    ensures PackedSize(Dict([])) == 1
    ensures PackedSize(Dict(items + [item])) ==
      PackedSize(Dict(items)) + PackedSize(item.key) + PackedSize(item.value) +
      if |items| == 15 || |items| == 65_535 then 2 else 0
  {
    ItemsSizeAppend(items, item);
  }

  lemma {:induction false} ItemsSizeAppend(items: seq<Item>, item: Item)
    ensures ItemsSize(items + [item]) == ItemsSize(items) + PackedSize(item.key) + PackedSize(item.value)
  {
    if items == [] {
      assert [] + [item] == [item] && [item][1..] == [];
    } else {
      assert (items + [item])[1..] == items[1..] + [item];
      ItemsSizeAppend(items[1..], item);
    }
  }

  /** `conn.send` of a response: packing it can raise, and so can packing its length into the header. */
  ghost predicate CanSend(response: Value) {
    PackableWithin(response, NEST_LIMIT) && PackedSize(response) < SIZE_LIMIT
  }

  lemma EnvelopeSize(result: Value)
    ensures PackedSize(Envelope(result)) == PackedSize(ToWire(result)) + 15
  {
    var a, b := Item(Str("result"), ToWire(result)), Item(Str("error"), Null);
    TwoItemsSize(a, b);
    AsciiSize("result");
    AsciiSize("error");
    assert PackedSize(a.key) == 7 && PackedSize(b.key) == 6;
  }

  lemma TwoItemsSize(a: Item, b: Item)
    ensures PackedSize(Dict([a, b])) ==
      1 + PackedSize(a.key) + PackedSize(a.value) + PackedSize(b.key) + PackedSize(b.value)
  {
    assert [a, b][1..] == [b] && [b][1..] == [];
    assert ItemsSize([b]) == PackedSize(b.key) + PackedSize(b.value);
  }

  lemma {:induction false} AsciiSize(s: string)
    requires forall i :: 0 <= i < |s| ==> s[i] as int < 0x80
    ensures Utf8Size(s) == |s|
  {
    if s != "" { AsciiSize(s[1..]); }
  }

  /** A handler's result can be answered with exactly if it is sendable one level below the packer's limit
      and leaves room for the 15 bytes around it in a frame; otherwise the send raises and ends the
      process. */
  lemma ReplySentIff(result: Value)
    ensures CanSend(Envelope(result)) <==>
            SendableWithin(result, NEST_LIMIT - 1) && PackedSize(ToWire(result)) < SIZE_LIMIT - 15
  {
    ReplyPackableIff(result);
    EnvelopeSize(result);
  }

  /** n lists around None. */
  function Nested(n: nat): Value { if n == 0 then Null else List([Nested(n - 1)]) }

  /** Nesting alone can be too much: lists around None can be sent exactly up to the limit. */
  lemma {:induction false} NestedSendableIff(n: nat, room: int)
    ensures SendableWithin(Nested(n), room) <==> n <= room
  {
    if n > 0 {
      NestedSendableIff(n - 1, room - 1);
      assert Nested(n - 1) in [Nested(n - 1)];
    }
  }

  /** The conversion leaves a value alone exactly when it is plain, and what it yields is plain: a
      second conversion changes nothing. */
  lemma {:induction false} WireFixedIff(v: Value)
    ensures ToWire(v) == v <==> Plain(v)
    ensures Plain(ToWire(v)) && ToWire(ToWire(v)) == ToWire(v)
  {
    WireIsPlain(v);
    FixedIfPlain(ToWire(v));
    if Plain(v) { FixedIfPlain(v); }
  }

  lemma {:induction false} WireIsPlain(v: Value)
    ensures Plain(ToWire(v))
  {
    match v
    case Dict(items) => ItemsArePlain(items, false);
    case List(elements) => AllArePlain(elements);
    case Tuple(elements) => AllArePlain(elements);
    case Set(elements) => AllArePlain(elements);
    case Model(fields) => ItemsArePlain(fields, true);
    case _ =>
  }

  lemma {:induction false} AllArePlain(values: seq<Value>)
    ensures forall i :: 0 <= i < |WireAll(values)| ==> Plain(WireAll(values)[i])
  {
    if values != [] { WireIsPlain(values[0]); AllArePlain(values[1..]); }
  }

  lemma {:induction false} ItemsArePlain(items: seq<Item>, publicOnly: bool)
    ensures forall i :: 0 <= i < |WireItems(items, publicOnly)| ==> Plain(WireItems(items, publicOnly)[i].value)
  {
    if items != [] {
      assert items[0].value < items[0];
      WireIsPlain(items[0].value);
      ItemsArePlain(items[1..], publicOnly);
    }
  }

  lemma {:induction false} FixedIfPlain(v: Value)
    requires Plain(v)
    ensures ToWire(v) == v
  {
    match v
    case Dict(items) => ItemsFixed(items);
    case List(elements) => AllFixed(elements);
    case _ =>
  }

  lemma {:induction false} AllFixed(values: seq<Value>)
    requires forall i :: 0 <= i < |values| ==> Plain(values[i])
    ensures WireAll(values) == values
  {
    if values != [] { FixedIfPlain(values[0]); AllFixed(values[1..]); }
  }

  lemma {:induction false} ItemsFixed(items: seq<Item>)
    requires forall i :: 0 <= i < |items| ==> Plain(items[i].value)
    ensures WireItems(items, false) == items
  {
    if items != [] {
      assert items[0].value < items[0];
      FixedIfPlain(items[0].value);
      ItemsFixed(items[1..]);
    }
  }

  /** On numbers: a handler can answer with 510 lists inside each other and no more. */
  lemma DeepestReply(n: nat)
    ensures CanSend(Envelope(Nested(n))) <==> n <= 510
  {
    ReplySentIff(Nested(n));
    NestedSendableIff(n, 510);
    NestedSize(n);
  }

  /** And with 4294967275 bytes and no more. */
  lemma LargestReply(bytes: Bytes)
    ensures CanSend(Envelope(Raw(bytes))) <==> |bytes| <= 4_294_967_275
  {
    ReplySentIff(Raw(bytes));
  }

  lemma {:induction false} NestedSize(n: nat)
    ensures ToWire(Nested(n)) == Nested(n) && PackedSize(Nested(n)) == n + 1
  {
    if n > 0 {
      NestedSize(n - 1);
      var inner := [Nested(n - 1)];
      assert inner[1..] == [];
      assert WireAll(inner) == inner && AllSize(inner) == PackedSize(inner[0]);
    }
  }

  // ---- dispatch ----

  type Args = map<string, Value>

  datatype Annotation = AnInt | AFloat | AnyType
  datatype Param = Param(name: string, annotation: Annotation)

  datatype Outcome = Returns(value: Value) | Raises(error: Exception)

  /** What inspecting a handler yields. */
  datatype Signature = Params(params: seq<Param>) | NoSignature(error: Exception)

  datatype Exception = Exception(typeError: bool, name: string, message: string, stack: string)

  /** A handler: its signature, and what calling it does under a tenant with keyword arguments. */
  datatype Handler = Handler(signature: Signature, call: (Value, Args) -> Outcome)

  /** An error with source "python"; `details` are the field, stack and context of `make_error`, whose
      context names the handler. */
  datatype Error = Error(kind: string, message: string, details: Option<Details>)
  datatype Details = Details(field: string, stack: string, handler: string)

  datatype Reply = Reply(result: Value, error: Option<Error>)

  /** `int(s)` and `float(s)`, which may reject the text. */
  datatype Parsers = Parsers(toInt: string -> Option<int>, toFloat: string -> Option<real>)

  ghost predicate Distinct(params: seq<Param>) {
    forall i, j :: 0 <= i < j < |params| ==> params[i].name != params[j].name
  }

  predicate Accepts(params: seq<Param>, key: string) {
    exists i :: 0 <= i < |params| && params[i].name == key
  }

  predicate Passed(params: seq<Param>, key: string) {
    key != "tenant" && (key != "" && key[0] == '_' ==> Accepts(params, key))
  }

  function Coerce(parsers: Parsers, v: Value, annotation: Annotation): Value {
    if !v.Str? then v
    else match annotation
      case AnInt => var n := parsers.toInt(v.s); if n.Some? then Int(n.value) else v
      case AFloat => var x := parsers.toFloat(v.s); if x.Some? then Float(x.value) else v
      case AnyType => v
  }

  /** The arguments a handler is called with: the request's own, without the tenant and without
      metadata it does not ask for, texts converted where the signature says int or float. */
  ghost predicate CalledWith(parsers: Parsers, params: seq<Param>, args: Args, clean: Args) {
    && (forall key :: key in clean <==> key in args && Passed(params, key))
    && (forall i :: 0 <= i < |params| && params[i].name in clean ==>
          clean[params[i].name] == Coerce(parsers, args[params[i].name], params[i].annotation))
    && forall key :: key in clean && !Accepts(params, key) ==> clean[key] == args[key]
  }

  lemma CalledWithOne(parsers: Parsers, params: seq<Param>, args: Args, a: Args, b: Args)
    requires CalledWith(parsers, params, args, a) && CalledWith(parsers, params, args, b)
    ensures a == b
  {
    forall key | key in a ensures key in b && a[key] == b[key] {
      if Accepts(params, key) {
        var i :| 0 <= i < |params| && params[i].name == key;
      }
    }
  }

  /** What cleaning comes to, key by key: the tenant never reaches the handler, a name with a leading
      underscore only if a parameter is called so, everything else always; and only a text whose parameter
      is annotated int or float changes, if it can be parsed as one. */
  lemma CleanedMeans(parsers: Parsers, params: seq<Param>, args: Args, clean: Args, key: string)
    requires CalledWith(parsers, params, args, clean)
    ensures key in clean <==>
      && key in args && key != "tenant"
      && (key != "" && key[0] == '_' ==> exists i :: 0 <= i < |params| && params[i].name == key)
    ensures key in clean && (forall i :: 0 <= i < |params| ==> params[i].name != key) ==> clean[key] == args[key]
    ensures forall i :: 0 <= i < |params| && params[i].name == key && key in clean ==>
      clean[key] ==
        if args[key].Str? && params[i].annotation == AnInt && parsers.toInt(args[key].s).Some?
        then Int(parsers.toInt(args[key].s).value)
        else if args[key].Str? && params[i].annotation == AFloat && parsers.toFloat(args[key].s).Some?
        then Float(parsers.toFloat(args[key].s).value)
        else args[key]
  {
    if Accepts(params, key) { assert exists i :: 0 <= i < |params| && params[i].name == key; }
  }

  class Process {
    var tenant: Value
    const handlers: map<string, Handler>
    const parsers: Parsers

    constructor (handlers: map<string, Handler>, parsers: Parsers)
      ensures this.handlers == handlers && this.parsers == parsers && tenant == Null
    {
      this.handlers, this.parsers, tenant := handlers, parsers, Null;
    }

    /** The filtering loop. */
    method Filter(params: seq<Param>, args: Args) returns (clean: Args)
      ensures clean == map key |
        && key in args && key != "tenant"
        && (key != "" && key[0] == '_' ==> exists i :: 0 <= i < |params| && params[i].name == key)
        :: args[key]
    {
      clean := map[];
      var keys := args.Keys;
      while keys != {}
        invariant keys <= args.Keys
        invariant clean == map key | key in args && key !in keys && Passed(params, key) :: args[key]
        decreases |keys|
      {
        var key :| key in keys;
        keys := keys - {key};
        if key == "tenant" {
          continue;
        }
        if key != "" && key[0] == '_' && !Accepts(params, key) {
          continue;
        }
        clean := clean[key := args[key]];
      }
    }

    method CoerceAll(params: seq<Param>, kept: Args) returns (clean: Args)
      requires Distinct(params)
      ensures clean.Keys == kept.Keys
      ensures forall i :: 0 <= i < |params| && params[i].name in kept ==>
                clean[params[i].name] == Coerce(parsers, kept[params[i].name], params[i].annotation)
      ensures forall key :: key in kept && !Accepts(params, key) ==> clean[key] == kept[key]
    {
      clean := kept;
      for n := 0 to |params|
        invariant clean.Keys == kept.Keys
        invariant forall i :: 0 <= i < n && params[i].name in kept ==>
                    clean[params[i].name] == Coerce(parsers, kept[params[i].name], params[i].annotation)
        invariant forall i :: n <= i < |params| && params[i].name in kept ==>
          clean[params[i].name] == kept[params[i].name]
        invariant forall key :: key in kept && !Accepts(params, key) ==> clean[key] == kept[key]
      {
        var name := params[n].name;
        if name in clean && clean[name].Str? {
          assert Accepts(params, name);
          match params[n].annotation
          case AnInt =>
            var v := parsers.toInt(clean[name].s);
            if v.Some? { clean := clean[name := Int(v.value)]; }
          case AFloat =>
            var v := parsers.toFloat(clean[name].s);
            if v.Some? { clean := clean[name := Float(v.value)]; }
          case AnyType =>
        }
      }
    }

    /** The handler runs under its own request's tenant, None if that has none, whatever request came
        before, and gets the cleaned arguments; the reply carries its converted result or its error. */
    method Dispatch(handler: string, args: Args) returns (reply: Reply, ghost clean: Args)
      requires Callable(handlers, handler)
      modifies this
      ensures "tenant" in args ==> tenant == args["tenant"]
      ensures "tenant" !in args ==> tenant == Null
      ensures handler !in handlers ==>
        reply == Reply(Null, Some(Error("HandlerNotFound", "no handler registered for '" + handler + "'", None)))
      ensures handler in handlers ==>
        match handlers[handler].signature
        case NoSignature(e) =>
          && reply.result == Null
          && reply.error == Some(Error(if e.typeError then "TypeError" else e.name, e.message,
                                       Some(Details("", e.stack, handler))))
        case Params(params) =>
          && CalledWith(parsers, params, args, clean)
          && match handlers[handler].call(tenant, clean)
             case Returns(value) => reply == Reply(ToWire(value), None)
             case Raises(e) =>
               && reply.result == Null
               && reply.error == Some(Error(if e.typeError then "TypeError" else e.name, e.message,
                                            Some(Details("", e.stack, handler))))
    {
      clean := map[];
      tenant := if "tenant" in args then args["tenant"] else Null;
      if handler !in handlers {
        return Reply(Null, Some(Error("HandlerNotFound", "no handler registered for '" + handler + "'", None))), clean;
      }
      var fn := handlers[handler];
      var outcome;
      match fn.signature {
        case NoSignature(e) =>
          outcome := Raises(e);
        case Params(params) =>
          var kept := Filter(params, args);
          var coerced := CoerceAll(params, kept);
          clean := coerced;
          outcome := fn.call(tenant, coerced);
      }
      match outcome
      case Returns(value) =>
        reply := Reply(ToWire(value), None);
      case Raises(e) =>
        var kind := if e.typeError then "TypeError" else e.name;
        reply := Reply(Null, Some(Error(kind, e.message, Some(Details("", e.stack, handler)))));
    }
  }

  /** A signature does not name a parameter twice. */
  ghost predicate Callable(handlers: map<string, Handler>, handler: string) {
    handler in handlers && handlers[handler].signature.Params? ==> Distinct(handlers[handler].signature.params)
  }

  /** No request leaks into the next one: a process that has served any other request replies to this
      one as a fresh process does. */
  method RepliesDoNotLeak(handlers: map<string, Handler>, parsers: Parsers, other: string, otherArgs: Args,
                          handler: string, args: Args)
    returns (after: Reply, fresh': Reply)
    requires Callable(handlers, other) && Callable(handlers, handler)
    ensures after == fresh'
  {
    ghost var c1, c2;
    var used := new Process(handlers, parsers);
    var unused := new Process(handlers, parsers);
    var _, _ := used.Dispatch(other, otherArgs);
    after, c1 := used.Dispatch(handler, args);
    fresh', c2 := unused.Dispatch(handler, args);
    if handler in handlers && handlers[handler].signature.Params? {
      CalledWithOne(parsers, handlers[handler].signature.params, args, c1, c2);
    }
  }

  /** Did the handler return None when it was called for these arguments under this tenant? */
  ghost predicate ReturnedNone(handlers: map<string, Handler>, parsers: Parsers, handler: string, args: Args,
                               tenant: Value) {
    && handler in handlers && handlers[handler].signature.Params?
    && exists clean ::
         && CalledWith(parsers, handlers[handler].signature.params, args, clean)
         && handlers[handler].call(tenant, clean) == Returns(Null)
  }

  /** A reply has exactly one of its two fields populated, exactly when the handler did not return None. */
  method OneFieldPopulatedIff(process: Process, handler: string, args: Args) returns (reply: Reply)
    requires Callable(process.handlers, handler)
    modifies process
    ensures (reply.result != Null && reply.error.None?) || (reply.result == Null && reply.error.Some?) <==>
            !ReturnedNone(process.handlers, process.parsers, handler, args, process.tenant)
  {
    ghost var clean;
    reply, clean := process.Dispatch(handler, args);
    if handler in process.handlers && process.handlers[handler].signature.Params? {
      var params := process.handlers[handler].signature.params;
      forall other | CalledWith(process.parsers, params, args, other) ensures other == clean {
        CalledWithOne(process.parsers, params, args, other, clean);
      }
      match process.handlers[handler].call(process.tenant, clean)
      case Returns(value) => assert ToWire(value) == Null <==> value == Null;
      case Raises(_) =>
    }
  }
}
