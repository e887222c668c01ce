/** The descriptor-driven JSON coder of src/rsmp/coder/json.c and the tagged variant of src/rsmp/coder/vars.h
    through which every leaf passes. A message is memory with slots at offsets; a JSON text is its tree. */
module JsonCoder {
  import opened Basics

  /** A variant as its reader sees it; a double is its 64 bits. */
  datatype Var = VBool(b: bool) | VString(s: Bytes) | VInt(i: int) | VUInt(u: nat) | VDouble(bits: nat) | VNull

  datatype Json =
    | JNull
    | JBool(b: bool)
    | JInt(i: int)
    | JDouble(bits: nat)
    | JString(s: Bytes)
    | JArray(items: seq<Json>)
    | JObject(members: map<string, Json>)

  const TWO_8 := 0x100
  const TWO_63 := 0x8000_0000_0000_0000
  const TWO_64 := 0x1_0000_0000_0000_0000

  /** The bits of the double one. */
  const ONE := 0x3FF0_0000_0000_0000

  predicate GoodVar(v: Var) {
    match v
    case VInt(i) => -TWO_63 <= i < TWO_63
    case VUInt(u) => u < TWO_64
    case VDouble(bits) => bits < TWO_64
    case _ => true
  }

  /** json_object_from_var. A double is written from the boolean member of the union, its lowest octet. */
  function FromVar(v: Var): Option<Json> {
    match v
    case VBool(b) => Some(JBool(b))
    case VString(s) => Some(JString(s))
    case VInt(i) => Some(JInt(i))
    case VUInt(u) => Some(JInt(u))
    case VDouble(bits) => Some(JDouble(if bits % TWO_8 != 0 then ONE else 0))
    case VNull => None
  }

  /** json2vars: an integer is read as a signed one, held at its largest value. */
  function ToVar(j: Json): Option<Var> {
    match j
    case JNull => Some(VNull)
    case JBool(b) => Some(VBool(b))
    case JInt(i) => Some(VInt(if i < TWO_63 then i else TWO_63 - 1))
    case JDouble(bits) => Some(VDouble(bits))
    case JString(s) => Some(VString(s))
    case _ => None
  }

  /** What a variant is after a trip through JSON. */
  function Carried(v: Var): Option<Var> {
    match FromVar(v)
    case None => None
    case Some(j) => ToVar(j)
  }

  /** Exactly booleans, strings, signed integers and the double zero come back as they were. An unsigned
      integer comes back signed and bounded, every other double as zero or one, and a null does not leave. */
  lemma CarriedIff(v: Var)
    requires GoodVar(v)
    ensures Carried(v) == Some(v) <==> v.VBool? || v.VString? || v.VInt? || v == VDouble(0)
    ensures v.VUInt? ==> Carried(v) == Some(VInt(if v.u < TWO_63 then v.u else TWO_63 - 1))
    ensures v.VNull? <==> Carried(v).None?
  {
    if v.VDouble? && Carried(v) == Some(v) {
      assert v.bits == ONE || v.bits == 0;
      assert ONE % TWO_8 == 0;
    }
  }

  // ---------------------------------------------------------------- the variant

  datatype Tag = TBool | TString | TInt | TUInt | TDouble | TNull

  /** rsmp_var_t: the eight octets the members share, and the text a string member points to. */
  class Variant {
    var tag: Tag
    var bits: nat
    var text: Bytes

    ghost predicate Valid()
      reads this
    {
      bits < TWO_64
    }

    function Value(): Var
      reads this
    {
      match tag
      case TBool => VBool(bits % TWO_8 != 0)
      case TString => VString(text)
      case TInt => VInt(if bits < TWO_63 then bits else bits - TWO_64)
      case TUInt => VUInt(bits)
      case TDouble => VDouble(bits)
      case TNull => VNull
    }

    constructor ()
      ensures Valid() && Value() == VNull
    {
      tag, bits, text := TNull, 0, [];
    }

    /** rsmp_var_data_free. */
    method Free()
      modifies this
      ensures Valid() && Value() == VNull
    {
      tag, bits, text := TNull, 0, [];
    }

    method SetString(s: Bytes)
      requires Valid()
      modifies this
      ensures Valid() && Value() == VString(s)
    {
      if tag == TString { Free(); }
      tag, text := TString, s;
    }

    method SetInt(i: int)
      requires Valid() && -TWO_63 <= i < TWO_63
      modifies this
      ensures Valid() && Value() == VInt(i)
    {
      if tag == TString { Free(); }
      tag, bits := TInt, if i < 0 then i + TWO_64 else i;
    }

    method SetUInt(u: nat)
      requires Valid() && u < TWO_64
      modifies this
      ensures Valid() && Value() == VUInt(u)
    {
      if tag == TString { Free(); }
      tag, bits := TUInt, u;
    }

    method SetDouble(d: nat)
      requires Valid() && d < TWO_64
      modifies this
      ensures Valid() && Value() == VDouble(d)
    {
      if tag == TString { Free(); }
      tag, bits := TDouble, d;
    }

    /** Only the lowest octet is written; the others keep what an earlier value left. */
    method SetBool(b: bool)
      requires Valid()
      modifies this
      ensures Valid() && Value() == VBool(b)
    {
      if tag == TString { Free(); }
      tag, bits := TBool, bits - bits % TWO_8 + if b then 1 else 0;
    }

    /** A converter setting the variant it is given. */
    method Set(v: Var)
      requires Valid() && GoodVar(v)
      modifies this
      ensures Valid() && Value() == v
    {
      match v
      case VBool(b) => SetBool(b);
      case VString(s) => SetString(s);
      case VInt(i) => SetInt(i);
      case VUInt(u) => SetUInt(u);
      case VDouble(d) => SetDouble(d);
      case VNull => Free();
    }

    /** json_object_from_var on the shared octets. */
    method ToJson() returns (j: Option<Json>)
      requires Valid()
      ensures j == FromVar(Value())
    {
      match tag
      case TBool => return Some(JBool(bits % TWO_8 != 0));
      case TString => return Some(JString(text));
      case TInt => return Some(JInt(if bits < TWO_63 then bits else bits - TWO_64));
      case TUInt => return Some(JInt(bits));
      case TDouble => return Some(JDouble(if bits % TWO_8 != 0 then ONE else 0));
      case TNull => return None;
    }
  }

  // -------------------------------------------------------- descriptors and messages

  /** The content of one leaf in memory. */
  type Value = Bytes

  datatype Converter = Converter(encode: Value -> Option<Var>, decode: Var -> Option<Value>)

  datatype Desc =
    | Field(lib: string, offset: nat, convert: Converter)
    | Array(lib: string, offset: nat, fields: seq<Desc>)
    | Table(lib: string, offset: nat, convert: Converter)

  datatype Slot = Leaf(value: Value) | Items(items: seq<Message>) | Leaves(values: seq<Value>)

  datatype Message = Message(slots: map<nat, Slot>)

  /** The message has a slot of the right shape for each descriptor. */
  ghost predicate Fits(m: Message, fields: seq<Desc>)
    decreases fields, 1
  {
    forall i :: 0 <= i < |fields| ==> fields[i].offset in m.slots && SlotConforms(m.slots[fields[i].offset], fields[i])
  }

  /** And no other slot. */
  ghost predicate NoOther(m: Message, fields: seq<Desc>) {
    forall o :: o in m.slots ==> exists i :: 0 <= i < |fields| && fields[i].offset == o
  }

  ghost predicate SlotConforms(s: Slot, d: Desc)
    decreases d, 0
  {
    match d
    case Field(_, _, _) => s.Leaf?
    case Array(_, _, fields) =>
      && s.Items?
      && forall k :: 0 <= k < |s.items| ==> Fits(s.items[k], fields) && NoOther(s.items[k], fields)
    case Table(_, _, _) => s.Leaves?
  }

  /** Labels and offsets are distinct on every level. */
  predicate LevelDistinct(fields: seq<Desc>) {
    forall i, j :: 0 <= i < j < |fields| ==> fields[i].lib != fields[j].lib && fields[i].offset != fields[j].offset
  }

  predicate Distinct(fields: seq<Desc>)
    decreases fields
  {
    LevelDistinct(fields) && forall i :: 0 <= i < |fields| && fields[i].Array? ==> Distinct(fields[i].fields)
  }

  // ------------------------------------------------------------------- encoding

  function EncodeLeaf(c: Converter, v: Value): Option<Json> {
    match c.encode(v)
    case None => None
    case Some(x) => FromVar(x)
  }

  function EncodeLeaves(c: Converter, values: seq<Value>): Option<seq<Json>> {
    if values == [] then Some([])
    else match EncodeLeaf(c, values[0])
         case None => None
         case Some(j) =>
           match EncodeLeaves(c, values[1..])
           case None => None
           case Some(rest) => Some([j] + rest)
  }

  /** json_add_fields, on an object as a map. */
  function AddFields(o: map<string, Json>, m: Message, fields: seq<Desc>): Option<map<string, Json>>
    requires Fits(m, fields)
    decreases fields, 2
  {
    if fields == [] then Some(o)
    else match EncodeSlot(m.slots[fields[0].offset], fields[0])
         case None => None
         case Some(j) => AddFields(o[fields[0].lib := j], m, fields[1..])
  }

  function EncodeItems(items: seq<Message>, fields: seq<Desc>): Option<seq<Json>>
    requires forall k :: 0 <= k < |items| ==> Fits(items[k], fields)
    decreases fields, 3, |items|
  {
    if items == [] then Some([])
    else match AddFields(map[], items[0], fields)
         case None => None
         case Some(o) =>
           match EncodeItems(items[1..], fields)
           case None => None
           case Some(rest) => Some([JObject(o)] + rest)
  }

  /** json_add_field, json_add_array and json_add_table. */
  function EncodeSlot(s: Slot, d: Desc): Option<Json>
    requires SlotConforms(s, d)
    decreases d, 1
  {
    match d
    case Field(_, _, c) => EncodeLeaf(c, s.value)
    case Array(_, _, fields) =>
      (match EncodeItems(s.items, fields)
       case None => None
       case Some(items) => Some(JArray(items)))
    case Table(_, _, c) =>
      (match EncodeLeaves(c, s.values)
       case None => None
       case Some(items) => Some(JArray(items)))
  }

  // ------------------------------------------------------------------- decoding

  /** json_object_object_get_ex: a member that is null reads as no object. */
  function Member(j: Json, key: string): Option<Json> {
    if j.JObject? && key in j.members && !j.members[key].JNull? then Some(j.members[key]) else None
  }

  /** json_extract_field. */
  function DecodeLeaf(c: Converter, j: Json): Option<Value> {
    match ToVar(j)
    case None => None
    case Some(x) => c.decode(x)
  }

  function DecodeLeaves(c: Converter, items: seq<Json>): Option<seq<Value>> {
    if items == [] then Some([])
    else match DecodeLeaf(c, items[0])
         case None => None
         case Some(v) =>
           match DecodeLeaves(c, items[1..])
           case None => None
           case Some(rest) => Some([v] + rest)
  }

  /** json_extract_fields, into the memory of a message. */
  function ExtractFields(j: Json, m: Message, fields: seq<Desc>): Option<Message>
    decreases fields, 2
  {
    if fields == [] then Some(m)
    else match Member(j, fields[0].lib)
         case None => None
         case Some(x) =>
           match DecodeSlot(x, fields[0])
           case None => None
           case Some(slot) => ExtractFields(j, Message(m.slots[fields[0].offset := slot]), fields[1..])
  }

  const BLANK := Message(map[])

  function DecodeItems(items: seq<Json>, fields: seq<Desc>): Option<seq<Message>>
    decreases fields, 3, |items|
  {
    if items == [] then Some([])
    else match ExtractFields(items[0], BLANK, fields)
         case None => None
         case Some(m) =>
           match DecodeItems(items[1..], fields)
           case None => None
           case Some(rest) => Some([m] + rest)
  }

  /** json_extract_field, json_extract_array and json_extract_table. */
  function DecodeSlot(j: Json, d: Desc): Option<Slot>
    decreases d, 1
  {
    match d
    case Field(_, _, c) =>
      (match DecodeLeaf(c, j)
       case None => None
       case Some(v) => Some(Leaf(v)))
    case Array(_, _, fields) =>
      if !j.JArray? then None
      else (match DecodeItems(j.items, fields)
            case None => None
            case Some(items) => Some(Items(items)))
    case Table(_, _, c) =>
      if !j.JArray? then None
      else (match DecodeLeaves(c, j.items)
            case None => None
            case Some(values) => Some(Leaves(values)))
  }

  // ----------------------------------------------------------------- round trip

  /** A leaf comes back: its converter undoes itself on what JSON makes of the variant. */
  predicate LeafSurvives(c: Converter, v: Value) {
    match EncodeLeaf(c, v)
    case None => false
    case Some(j) => DecodeLeaf(c, j) == Some(v)
  }

  ghost predicate SlotSurvives(s: Slot, d: Desc)
    requires SlotConforms(s, d)
    decreases d, 0
  {
    match d
    case Field(_, _, c) => LeafSurvives(c, s.value)
    case Array(_, _, fields) => forall k :: 0 <= k < |s.items| ==> Survives(s.items[k], fields)
    case Table(_, _, c) => forall k :: 0 <= k < |s.values| ==> LeafSurvives(c, s.values[k])
  }

  /** Every leaf of the message comes back. */
  ghost predicate Survives(m: Message, fields: seq<Desc>)
    requires Fits(m, fields)
    decreases fields, 1
  {
    forall i :: 0 <= i < |fields| ==> SlotSurvives(m.slots[fields[i].offset], fields[i])
  }

  /** What extracting makes of what adding produced. */
  function RoundTripped(m: Message, fields: seq<Desc>): Option<Message>
    requires Fits(m, fields)
  {
    match AddFields(map[], m, fields)
    case None => None
    case Some(o) => ExtractFields(JObject(o), BLANK, fields)
  }

  function SlotTripped(s: Slot, d: Desc): Option<Slot>
    requires SlotConforms(s, d)
  {
    match EncodeSlot(s, d)
    case None => None
    case Some(j) => if j.JNull? then None else DecodeSlot(j, d)
  }

  lemma {:induction false} LeavesTripped(c: Converter, values: seq<Value>)
    ensures match EncodeLeaves(c, values)
            case None => exists k :: 0 <= k < |values| && !LeafSurvives(c, values[k])
            case Some(items) => DecodeLeaves(c, items) == Some(values) <==> forall k :: 0 <= k < |values| ==>
                      LeafSurvives(c, values[k])
  {
    if values != [] {
      LeavesTripped(c, values[1..]);
      assert forall k :: 1 <= k < |values| ==> values[k] == values[1..][k - 1];
      match EncodeLeaf(c, values[0]) {
        case None => assert !LeafSurvives(c, values[0]);
        case Some(j) =>
          match EncodeLeaves(c, values[1..]) {
            case None =>
            case Some(rest) => assert ([j] + rest)[1..] == rest && values == [values[0]] + values[1..];
          }
      }
    }
  }

  /** What adding does to an object: one member for each descriptor, or a slot that cannot be encoded. */
  lemma {:induction false} Added(o: map<string, Json>, m: Message, fields: seq<Desc>)
    requires Fits(m, fields) && LevelDistinct(fields)
    ensures AddFields(o, m, fields).None? ==>
              exists i :: 0 <= i < |fields| && EncodeSlot(m.slots[fields[i].offset], fields[i]).None?
    ensures AddFields(o, m, fields).Some? ==>
              var r := AddFields(o, m, fields).value;
              && (forall i :: 0 <= i < |fields| ==>
                    && fields[i].lib in r
                    && EncodeSlot(m.slots[fields[i].offset], fields[i]) == Some(r[fields[i].lib]))
              && (forall k :: k in o && (forall i :: 0 <= i < |fields| ==> fields[i].lib != k) ==>
                                k in r && r[k] == o[k])
    decreases |fields|
  {
    hide EncodeSlot, SlotConforms;
    if fields != [] {
      var d, rest := fields[0], fields[1..];
      RestFits(m, fields);
      assert forall i :: 1 <= i < |fields| ==> fields[i] == rest[i - 1];
      match EncodeSlot(m.slots[d.offset], d) {
        case None => assert fields[0] == d;
        case Some(j) =>
          Added(o[d.lib := j], m, rest);
          assert forall i :: 0 <= i < |rest| ==> rest[i] == fields[i + 1] && rest[i].lib != fields[0].lib;
      }
    }
  }

  lemma RestFits(m: Message, fields: seq<Desc>)
    requires Fits(m, fields) && LevelDistinct(fields) && fields != []
    ensures Fits(m, fields[1..]) && LevelDistinct(fields[1..]) && fields[0].offset in m.slots
    ensures SlotConforms(m.slots[fields[0].offset], fields[0])
  {
    assert forall i :: 0 <= i < |fields[1..]| ==> fields[1..][i] == fields[i + 1];
  }

  function Decoded(j: Json, d: Desc): Option<Slot> {
    match Member(j, d.lib)
    case None => None
    case Some(x) => DecodeSlot(x, d)
  }

  /** Extracting writes the slots of its descriptors and no other. */
  lemma {:induction false} Kept(j: Json, m: Message, fields: seq<Desc>)
    requires ExtractFields(j, m, fields).Some?
    ensures var r := ExtractFields(j, m, fields).value;
            && (forall k :: k in m.slots && (forall i :: 0 <= i < |fields| ==> fields[i].offset != k) ==>
                              k in r.slots && r.slots[k] == m.slots[k])
            && (forall k :: k in r.slots ==> k in m.slots || exists i :: 0 <= i < |fields| && fields[i].offset == k)
    decreases |fields|
  {
    hide DecodeSlot, Member;
    if fields != [] {
      var d, rest := fields[0], fields[1..];
      Kept(j, Message(m.slots[d.offset := Decoded(j, d).value]), rest);
      assert forall i :: 0 <= i < |rest| ==> rest[i] == fields[i + 1];
      assert forall i :: 1 <= i < |fields| ==> fields[i] == rest[i - 1];
      assert fields[0] == d;
    }
  }

  /** What extracting does to memory: one slot for each descriptor, or a member that cannot be decoded. */
  lemma {:induction false} Extracted(j: Json, m: Message, fields: seq<Desc>)
    requires LevelDistinct(fields)
    ensures ExtractFields(j, m, fields).None? ==> exists i :: 0 <= i < |fields| && Decoded(j, fields[i]).None?
    ensures ExtractFields(j, m, fields).Some? ==>
              var r := ExtractFields(j, m, fields).value;
              forall i :: 0 <= i < |fields| ==>
                fields[i].offset in r.slots && Decoded(j, fields[i]) == Some(r.slots[fields[i].offset])
    decreases |fields|
  {
    hide DecodeSlot, Member;
    if fields != [] {
      var d, rest := fields[0], fields[1..];
      assert forall i :: 0 <= i < |rest| ==> rest[i] == fields[i + 1] && rest[i].offset != d.offset;
      assert forall i :: 1 <= i < |fields| ==> fields[i] == rest[i - 1];
      match Decoded(j, d) {
        case None => assert fields[0] == d;
        case Some(slot) =>
          var next := Message(m.slots[d.offset := slot]);
          Extracted(j, next, rest);
          if ExtractFields(j, next, rest).Some? { Kept(j, next, rest); }
      }
    }
  }

  lemma NeverNull(s: Slot, d: Desc)
    requires SlotConforms(s, d)
    ensures EncodeSlot(s, d).Some? ==> !EncodeSlot(s, d).value.JNull?
  {}

  /** The members of an object that was added decode to what their slots decode to. */
  lemma AddedDecodes(m: Message, fields: seq<Desc>, i: nat)
    requires Fits(m, fields) && LevelDistinct(fields) && i < |fields| && AddFields(map[], m, fields).Some?
    ensures Decoded(JObject(AddFields(map[], m, fields).value), fields[i])
            == SlotTripped(m.slots[fields[i].offset], fields[i])
  {
    hide EncodeSlot, DecodeSlot;
    Added(map[], m, fields);
    NeverNull(m.slots[fields[i].offset], fields[i]);
  }

  lemma SlotTrippedIff(s: Slot, d: Desc)
    requires SlotConforms(s, d) && (d.Array? ==> Distinct(d.fields))
    ensures SlotTripped(s, d) == Some(s) <==> SlotSurvives(s, d)
    decreases d, 0
  {
    NeverNull(s, d);
    match d
    case Field(_, _, c) =>
    case Array(_, _, fields) => ItemsTripped(s.items, fields);
    case Table(_, _, c) => LeavesTripped(c, s.values);
  }

  lemma DecodeCons(head: Json, rest: seq<Json>, fields: seq<Desc>)
    ensures DecodeItems([head] + rest, fields)
            == match (ExtractFields(head, BLANK, fields), DecodeItems(rest, fields))
               case (Some(m), Some(ms)) => Some([m] + ms)
               case _ => None
  {
    hide ExtractFields;
    assert ([head] + rest)[1..] == rest;
  }

  lemma NothingDecoded(fields: seq<Desc>)
    ensures DecodeItems([], fields) == Some([])
  {}

  lemma {:induction false} ItemsTripped(items: seq<Message>, fields: seq<Desc>)
    requires Distinct(fields) && forall k :: 0 <= k < |items| ==> Fits(items[k], fields) && NoOther(items[k], fields)
    ensures EncodeItems(items, fields).None? ==> exists k :: 0 <= k < |items| && !Survives(items[k], fields)
    ensures EncodeItems(items, fields).Some? ==>
              (DecodeItems(EncodeItems(items, fields).value, fields) == Some(items)
               <==> forall k :: 0 <= k < |items| ==> Survives(items[k], fields))
    decreases fields, 2, |items|
  {
    hide Fits, NoOther, Survives, AddFields, ExtractFields, Distinct, DecodeItems;
    if items == [] {
      NothingDecoded(fields);
    } else {
      var head, rest := items[0], items[1..];
      assert items == [head] + rest;
      assert forall k :: 0 <= k < |rest| ==> rest[k] == items[k + 1];
      MessageTripped(head, fields);
      ItemsTripped(rest, fields);
      assert (forall k :: 0 <= k < |items| ==> Survives(items[k], fields))
             <==> Survives(head, fields) && forall k :: 0 <= k < |rest| ==> Survives(rest[k], fields) by {
        assert forall k :: 1 <= k < |items| ==> items[k] == rest[k - 1];
      }
      if AddFields(map[], head, fields).Some? && EncodeItems(rest, fields).Some? {
        var o, js := AddFields(map[], head, fields).value, EncodeItems(rest, fields).value;
        DecodeCons(JObject(o), js, fields);
      }
    }
  }

  lemma NotEncoded(s: Slot, d: Desc)
    requires SlotConforms(s, d)
    ensures EncodeSlot(s, d).None? ==> SlotTripped(s, d).None?
  {}

  /** Adding and extracting gives a message back exactly when every leaf comes back. */
  lemma {:induction false} MessageTripped(m: Message, fields: seq<Desc>)
    requires Distinct(fields) && Fits(m, fields) && NoOther(m, fields)
    ensures RoundTripped(m, fields) == Some(m) <==> Survives(m, fields)
    decreases fields, 1
  {
    hide SlotTripped, SlotSurvives, EncodeSlot, DecodeSlot, SlotConforms, AddFields, ExtractFields, Decoded;
    forall i | 0 <= i < |fields|
      ensures SlotTripped(m.slots[fields[i].offset], fields[i]) == Some(m.slots[fields[i].offset])
              <==> SlotSurvives(m.slots[fields[i].offset], fields[i])
      ensures EncodeSlot(m.slots[fields[i].offset], fields[i]).None? ==>
                SlotTripped(m.slots[fields[i].offset], fields[i]).None?
    {
      SlotTrippedIff(m.slots[fields[i].offset], fields[i]);
      NotEncoded(m.slots[fields[i].offset], fields[i]);
    }
    Added(map[], m, fields);
    if AddFields(map[], m, fields).Some? {
      var o := AddFields(map[], m, fields).value;
      Extracted(JObject(o), BLANK, fields);
      if ExtractFields(JObject(o), BLANK, fields).Some? { Kept(JObject(o), BLANK, fields); }
      forall i | 0 <= i < |fields|
        ensures Decoded(JObject(o), fields[i]) == SlotTripped(m.slots[fields[i].offset], fields[i])
      {
        AddedDecodes(m, fields, i);
      }
      if ExtractFields(JObject(o), BLANK, fields).Some? {
        SameSlots(m, ExtractFields(JObject(o), BLANK, fields).value, fields);
      }
    }
  }

  /** Two memories without other slots are the same when their slots are. */
  lemma SameSlots(m: Message, r: Message, fields: seq<Desc>)
    requires Fits(m, fields) && NoOther(m, fields) && NoOther(r, fields)
    requires forall i :: 0 <= i < |fields| ==> fields[i].offset in r.slots
    ensures r == m <==> forall i :: 0 <= i < |fields| ==> r.slots[fields[i].offset] == m.slots[fields[i].offset]
  {
    hide SlotConforms;
    if forall i :: 0 <= i < |fields| ==> r.slots[fields[i].offset] == m.slots[fields[i].offset] {
      assert r.slots.Keys == m.slots.Keys;
      assert r.slots == m.slots;
    }
  }

  // ------------------------------------------------- what the tree of a message looks like

  /** The JSON value of a leaf: booleans, strings and integers as they are, a double as zero or one by its lowest octet. */
  predicate ShowsLeaf(j: Json, c: Converter, v: Value) {
    c.encode(v).Some?
    && match c.encode(v).value
       case VBool(b) => j == JBool(b)
       case VString(s) => j == JString(s)
       case VInt(i) => j == JInt(i)
       case VUInt(u) => j == JInt(u)
       case VDouble(bits) => j == JDouble(if bits % 256 == 0 then 0 else 0x3FF0_0000_0000_0000)
       case VNull => false
  }

  /** An array has one object for each item and a table one value for each element, in their order. */
  ghost predicate ShowsSlot(j: Json, s: Slot, d: Desc)
    requires SlotConforms(s, d)
    decreases d, 0
  {
    match d
    case Field(_, _, c) => ShowsLeaf(j, c, s.value)
    case Array(_, _, fields) =>
      && j.JArray? && |j.items| == |s.items|
      && forall k :: 0 <= k < |s.items| ==> j.items[k].JObject? && ShowsObject(j.items[k].members, s.items[k], fields)
    case Table(_, _, c) =>
      && j.JArray? && |j.items| == |s.values|
      && forall k :: 0 <= k < |s.values| ==> ShowsLeaf(j.items[k], c, s.values[k])
  }

  /** An object has exactly the labels of its descriptors as members, each with the value of its slot. */
  ghost predicate ShowsObject(o: map<string, Json>, m: Message, fields: seq<Desc>)
    requires Fits(m, fields)
    decreases fields, 1
  {
    && (forall k :: k in o <==> Labelled(fields, k))
    && forall i :: 0 <= i < |fields| ==>
         fields[i].lib in o && ShowsSlot(o[fields[i].lib], m.slots[fields[i].offset], fields[i])
  }

  predicate Labelled(fields: seq<Desc>, lib: string) {
    exists i :: 0 <= i < |fields| && fields[i].lib == lib
  }

  lemma LeafShown(c: Converter, v: Value, j: Json)
    ensures EncodeLeaf(c, v) == Some(j) <==> ShowsLeaf(j, c, v)
  {}

  lemma {:induction false} LeavesShown(c: Converter, values: seq<Value>, items: seq<Json>)
    ensures EncodeLeaves(c, values) == Some(items)
            <==> |items| == |values| && forall k :: 0 <= k < |values| ==> ShowsLeaf(items[k], c, values[k])
  {
    hide EncodeLeaf, ShowsLeaf;
    if values != [] {
      if items != [] {
        LeavesShown(c, values[1..], items[1..]);
        LeafShown(c, values[0], items[0]);
        assert forall k :: 1 <= k < |values| ==> values[k] == values[1..][k - 1];
        assert forall k :: 1 <= k < |items| ==> items[k] == items[1..][k - 1];
        assert items == [items[0]] + items[1..];
      }
      if EncodeLeaves(c, values) == Some(items) {
        assert items[1..] == EncodeLeaves(c, values[1..]).value;
      }
      if |items| == |values| && forall k :: 0 <= k < |values| ==> ShowsLeaf(items[k], c, values[k]) {
        forall k | 0 <= k < |values[1..]| ensures ShowsLeaf(items[1..][k], c, values[1..][k]) {
          assert ShowsLeaf(items[k + 1], c, values[k + 1]);
        }
      }
    }
  }

  lemma {:induction false} AddedLabels(o: map<string, Json>, m: Message, fields: seq<Desc>)
    requires Fits(m, fields) && LevelDistinct(fields) && AddFields(o, m, fields).Some?
    ensures forall k :: k in AddFields(o, m, fields).value <==> k in o || Labelled(fields, k)
    decreases |fields|
  {
    hide EncodeSlot, SlotConforms;
    if fields != [] {
      RestFits(m, fields);
      var j := EncodeSlot(m.slots[fields[0].offset], fields[0]).value;
      AddedLabels(o[fields[0].lib := j], m, fields[1..]);
      forall k ensures Labelled(fields, k) <==> k == fields[0].lib || Labelled(fields[1..], k) { LabelledRest(fields, k); }
    }
  }

  lemma LabelledRest(fields: seq<Desc>, k: string)
    requires fields != []
    ensures Labelled(fields, k) <==> k == fields[0].lib || Labelled(fields[1..], k)
  {
    if i :| 0 <= i < |fields| && fields[i].lib == k { assert i > 0 ==> fields[1..][i - 1].lib == k; }
    if i :| 0 <= i < |fields[1..]| && fields[1..][i].lib == k { assert fields[i + 1].lib == k; }
  }

  lemma SlotShown(s: Slot, d: Desc, j: Json)
    requires SlotConforms(s, d) && (d.Array? ==> Distinct(d.fields))
    ensures EncodeSlot(s, d) == Some(j) <==> ShowsSlot(j, s, d)
    decreases d, 0
  {
    match d
    case Field(_, _, c) => LeafShown(c, s.value, j);
    case Array(_, _, fields) => if j.JArray? { ItemsShown(s.items, fields, j.items); }
    case Table(_, _, c) => if j.JArray? { LeavesShown(c, s.values, j.items); }
  }

  predicate IsObject(j: Json, o: Option<map<string, Json>>) {
    j.JObject? && o == Some(j.members)
  }

  lemma {:induction false} ItemsAreObjects(items: seq<Message>, fields: seq<Desc>, js: seq<Json>)
    requires forall k :: 0 <= k < |items| ==> Fits(items[k], fields)
    ensures EncodeItems(items, fields) == Some(js)
            <==> |js| == |items| && forall k :: 0 <= k < |items| ==> IsObject(js[k], AddFields(map[], items[k], fields))
    decreases |items|
  {
    hide Fits, AddFields;
    if items != [] {
      var rest := items[1..];
      assert forall k :: 0 <= k < |rest| ==> rest[k] == items[k + 1];
      if js != [] {
        ItemsAreObjects(rest, fields, js[1..]);
        assert js == [js[0]] + js[1..];
      }
      if EncodeItems(items, fields) == Some(js) {
        assert js[1..] == EncodeItems(rest, fields).value;
        forall k | 0 <= k < |items| ensures IsObject(js[k], AddFields(map[], items[k], fields)) {
          if k > 0 { assert js[k] == js[1..][k - 1] && items[k] == rest[k - 1]; }
        }
      }
      if |js| == |items| && forall k :: 0 <= k < |items| ==> IsObject(js[k], AddFields(map[], items[k], fields)) {
        forall k | 0 <= k < |rest| ensures IsObject(js[1..][k], AddFields(map[], rest[k], fields)) {
          assert IsObject(js[k + 1], AddFields(map[], items[k + 1], fields));
        }
      }
    }
  }

  lemma ItemsShown(items: seq<Message>, fields: seq<Desc>, js: seq<Json>)
    requires Distinct(fields) && forall k :: 0 <= k < |items| ==> Fits(items[k], fields)
    ensures EncodeItems(items, fields) == Some(js)
            <==> |js| == |items| && forall k :: 0 <= k < |items| ==>
                                              js[k].JObject? && ShowsObject(js[k].members, items[k], fields)
    decreases fields, 2
  {
    hide Fits, AddFields, ShowsObject, Distinct, EncodeItems;
    ItemsAreObjects(items, fields, js);
    forall k | 0 <= k < |items| && k < |js|
      ensures IsObject(js[k], AddFields(map[], items[k], fields))
              <==> js[k].JObject? && ShowsObject(js[k].members, items[k], fields)
    {
      if js[k].JObject? { MessageShown(items[k], fields, js[k].members); }
    }
  }

  /** Adding a message gives an object exactly when that object shows the message; so it fails exactly when none does. */
  lemma {:induction false} MessageShown(m: Message, fields: seq<Desc>, o: map<string, Json>)
    requires Distinct(fields) && Fits(m, fields)
    ensures AddFields(map[], m, fields) == Some(o) <==> ShowsObject(o, m, fields)
    decreases fields, 1
  {
    hide EncodeSlot, ShowsSlot, SlotConforms, AddFields;
    Added(map[], m, fields);
    var r := AddFields(map[], m, fields);
    if r.Some? { AddedLabels(map[], m, fields); }
    forall i | 0 <= i < |fields| && fields[i].lib in o
      ensures EncodeSlot(m.slots[fields[i].offset], fields[i]) == Some(o[fields[i].lib])
              <==> ShowsSlot(o[fields[i].lib], m.slots[fields[i].offset], fields[i])
    {
      SlotShown(m.slots[fields[i].offset], fields[i], o[fields[i].lib]);
    }
    if r == Some(o) {
      forall i | 0 <= i < |fields| ensures fields[i].lib in o { assert Labelled(fields, fields[i].lib); }
    }
    if ShowsObject(o, m, fields) {
      assert r.Some?;
      forall k | k in o ensures k in r.value && r.value[k] == o[k] {
        assert Labelled(fields, k);
        var i :| 0 <= i < |fields| && fields[i].lib == k;
      }
      assert r.value == o;
    }
  }

  // ------------------------------------------------------- what is read from a tree

  /** The variant a JSON value is read as: an integer as a signed one held at the largest value of 64 bits, a double as it
      stands. */
  predicate ReadsAs(j: Json, x: Var) {
    match j
    case JNull => x == VNull
    case JBool(b) => x == VBool(b)
    case JInt(i) => x == VInt(if i <= 0x7FFF_FFFF_FFFF_FFFF then i else 0x7FFF_FFFF_FFFF_FFFF)
    case JDouble(bits) => x == VDouble(bits)
    case JString(s) => x == VString(s)
    case _ => false
  }

  ghost predicate ReadsLeaf(v: Value, j: Json, c: Converter) {
    exists x :: ReadsAs(j, x) && c.decode(x) == Some(v)
  }

  ghost predicate ReadsSlot(s: Slot, j: Json, d: Desc)
    decreases d, 0
  {
    match d
    case Field(_, _, c) => s.Leaf? && ReadsLeaf(s.value, j, c)
    case Array(_, _, fields) =>
      && s.Items? && j.JArray? && |s.items| == |j.items|
      && forall k :: 0 <= k < |j.items| ==> ReadsObject(s.items[k], j.items[k], fields)
    case Table(_, _, c) =>
      && s.Leaves? && j.JArray? && |s.values| == |j.items|
      && forall k :: 0 <= k < |j.items| ==> ReadsLeaf(s.values[k], j.items[k], c)
  }

  /** The member of the label, there and not null, gives the slot. */
  ghost predicate ReadsMember(s: Slot, j: Json, d: Desc)
    decreases d, 1
  {
    j.JObject? && d.lib in j.members && !j.members[d.lib].JNull? && ReadsSlot(s, j.members[d.lib], d)
  }

  /** The memory has exactly the slots of the descriptors, each read from its member. */
  ghost predicate ReadsObject(m: Message, j: Json, fields: seq<Desc>)
    decreases fields, 2
  {
    && (forall o :: o in m.slots <==> Placed(fields, o))
    && forall i :: 0 <= i < |fields| ==>
         fields[i].offset in m.slots && ReadsMember(m.slots[fields[i].offset], j, fields[i])
  }

  predicate Placed(fields: seq<Desc>, offset: nat) {
    exists i :: 0 <= i < |fields| && fields[i].offset == offset
  }

  lemma LeafRead(c: Converter, j: Json, v: Value)
    ensures DecodeLeaf(c, j) == Some(v) <==> ReadsLeaf(v, j, c)
  {
    if DecodeLeaf(c, j) == Some(v) { assert ReadsAs(j, ToVar(j).value); }
  }

  lemma {:induction false} LeavesRead(c: Converter, items: seq<Json>, values: seq<Value>)
    ensures DecodeLeaves(c, items) == Some(values)
            <==> |values| == |items| && forall k :: 0 <= k < |items| ==> ReadsLeaf(values[k], items[k], c)
  {
    hide DecodeLeaf, ReadsLeaf;
    if items != [] {
      if values != [] {
        LeavesRead(c, items[1..], values[1..]);
        LeafRead(c, items[0], values[0]);
        assert forall k :: 1 <= k < |values| ==> values[k] == values[1..][k - 1];
        assert forall k :: 1 <= k < |items| ==> items[k] == items[1..][k - 1];
        assert values == [values[0]] + values[1..];
      }
      if DecodeLeaves(c, items) == Some(values) {
        assert values[1..] == DecodeLeaves(c, items[1..]).value;
      }
      if |values| == |items| && forall k :: 0 <= k < |items| ==> ReadsLeaf(values[k], items[k], c) {
        forall k | 0 <= k < |items[1..]| ensures ReadsLeaf(values[1..][k], items[1..][k], c) {
          assert ReadsLeaf(values[k + 1], items[k + 1], c);
        }
      }
    }
  }

  lemma {:induction false} ItemsAreRead(js: seq<Json>, fields: seq<Desc>, items: seq<Message>)
    ensures DecodeItems(js, fields) == Some(items)
            <==> |js| == |items| && forall k :: 0 <= k < |js| ==> ExtractFields(js[k], BLANK, fields) == Some(items[k])
    decreases |js|
  {
    hide ExtractFields;
    if js != [] {
      if items != [] {
        ItemsAreRead(js[1..], fields, items[1..]);
        assert items == [items[0]] + items[1..];
      }
      if DecodeItems(js, fields) == Some(items) {
        assert items[1..] == DecodeItems(js[1..], fields).value;
        forall k | 0 <= k < |js| ensures ExtractFields(js[k], BLANK, fields) == Some(items[k]) {
          if k > 0 { assert js[k] == js[1..][k - 1] && items[k] == items[1..][k - 1]; }
        }
      }
      if |js| == |items| && forall k :: 0 <= k < |js| ==> ExtractFields(js[k], BLANK, fields) == Some(items[k]) {
        forall k | 0 <= k < |js[1..]| ensures ExtractFields(js[1..][k], BLANK, fields) == Some(items[1..][k]) {
          assert ExtractFields(js[k + 1], BLANK, fields) == Some(items[k + 1]);
        }
      }
    }
  }

  lemma SlotRead(j: Json, d: Desc, s: Slot)
    requires d.Array? ==> Distinct(d.fields)
    ensures DecodeSlot(j, d) == Some(s) <==> ReadsSlot(s, j, d)
    decreases d, 0
  {
    hide ReadsObject;
    match d
    case Field(_, _, c) => if s.Leaf? { LeafRead(c, j, s.value); }
    case Array(_, _, fields) =>
      if j.JArray? && s.Items? {
        ItemsAreRead(j.items, fields, s.items);
        forall k | 0 <= k < |j.items| && k < |s.items|
          ensures ExtractFields(j.items[k], BLANK, fields) == Some(s.items[k]) <==> ReadsObject(s.items[k], j.items[k], fields)
        {
          MessageRead(j.items[k], fields, s.items[k]);
        }
      }
    case Table(_, _, c) => if j.JArray? && s.Leaves? { LeavesRead(c, j.items, s.values); }
  }

  lemma MemberRead(j: Json, d: Desc, s: Slot)
    requires d.Array? ==> Distinct(d.fields)
    ensures Decoded(j, d) == Some(s) <==> ReadsMember(s, j, d)
    decreases d, 1
  {
    hide DecodeSlot, ReadsSlot;
    if Member(j, d.lib).Some? { SlotRead(Member(j, d.lib).value, d, s); }
  }

  lemma SlotsPlaced(j: Json, fields: seq<Desc>)
    requires LevelDistinct(fields) && ExtractFields(j, BLANK, fields).Some?
    ensures forall o :: o in ExtractFields(j, BLANK, fields).value.slots <==> Placed(fields, o)
  {
    hide ExtractFields, Decoded, LevelDistinct;
    Kept(j, BLANK, fields);
    Extracted(j, BLANK, fields);
    var r := ExtractFields(j, BLANK, fields).value;
    forall o ensures o in r.slots <==> Placed(fields, o) {
      if i :| 0 <= i < |fields| && fields[i].offset == o { assert fields[i].offset in r.slots; }
    }
  }

  /** Every slot is what its member decodes to. */
  ghost predicate DecodesTo(j: Json, fields: seq<Desc>, m: Message) {
    && (forall o :: o in m.slots <==> Placed(fields, o))
    && forall i :: 0 <= i < |fields| ==>
         fields[i].offset in m.slots && Decoded(j, fields[i]) == Some(m.slots[fields[i].offset])
  }

  lemma ExtractsIff(j: Json, fields: seq<Desc>, m: Message)
    requires LevelDistinct(fields)
    ensures ExtractFields(j, BLANK, fields) == Some(m) <==> DecodesTo(j, fields, m)
  {
    hide ExtractFields, Decoded, LevelDistinct, Placed;
    var r := ExtractFields(j, BLANK, fields);
    Extracted(j, BLANK, fields);
    if r.Some? { SlotsPlaced(j, fields); }
    if DecodesTo(j, fields, m) { SameMemory(j, fields, r.value, m); }
  }

  lemma SameMemory(j: Json, fields: seq<Desc>, m: Message, r: Message)
    requires DecodesTo(j, fields, m) && DecodesTo(j, fields, r)
    ensures m == r
  {
    hide Decoded;
    forall o | o in m.slots ensures o in r.slots && m.slots[o] == r.slots[o] {
      assert Placed(fields, o);
      var i :| 0 <= i < |fields| && fields[i].offset == o;
    }
    assert m.slots.Keys == r.slots.Keys;
    assert m.slots == r.slots;
  }

  /** Extracting gives a message exactly when that message is read from the tree; so it fails exactly when none is. */
  lemma {:induction false} MessageRead(j: Json, fields: seq<Desc>, m: Message)
    requires Distinct(fields)
    ensures ExtractFields(j, BLANK, fields) == Some(m) <==> ReadsObject(m, j, fields)
    decreases fields, 2
  {
    hide Decoded, ReadsMember, ExtractFields, Placed;
    ExtractsIff(j, fields, m);
    forall i | 0 <= i < |fields| && fields[i].offset in m.slots
      ensures Decoded(j, fields[i]) == Some(m.slots[fields[i].offset]) <==> ReadsMember(m.slots[fields[i].offset], j, fields[i])
    {
      MemberRead(j, fields[i], m.slots[fields[i].offset]);
    }
  }

  /** A converter that undoes itself on a variant JSON carries gives a leaf that comes back. */
  lemma InverseSurvives(c: Converter, v: Value)
    requires c.encode(v).Some? && GoodVar(c.encode(v).value) && c.decode(c.encode(v).value) == Some(v)
    requires var x := c.encode(v).value; x.VBool? || x.VString? || x.VInt? || x == VDouble(0)
    ensures LeafSurvives(c, v)
  {
    CarriedIff(c.encode(v).value);
  }

  /** Distinct labels are needed: of two fields under one label the second overwrites the first. */
  lemma SameLabelLoses(c: Converter, lib: string, v: Value, w: Value)
    requires v != w && LeafSurvives(c, v) && LeafSurvives(c, w)
    ensures var fields := [Field(lib, 0, c), Field(lib, 1, c)];
            var m := Message(map[0 := Leaf(v), 1 := Leaf(w)]);
            Fits(m, fields) && RoundTripped(m, fields) == Some(Message(map[0 := Leaf(w), 1 := Leaf(w)])) != Some(m)
  {
    var fields := [Field(lib, 0, c), Field(lib, 1, c)];
    var m := Message(map[0 := Leaf(v), 1 := Leaf(w)]);
    var x, y := EncodeLeaf(c, v).value, EncodeLeaf(c, w).value;
    assert fields[1..] == [Field(lib, 1, c)] && fields[1..][1..] == [];
    var o := map[lib := x][lib := y];
    assert AddFields(map[], m, fields) == AddFields(map[lib := x], m, fields[1..]);
    assert AddFields(map[lib := x], m, fields[1..]) == AddFields(o, m, []) == Some(o);
    var j := JObject(o);
    assert Member(j, lib) == Some(y) && DecodeSlot(y, fields[0]) == Some(Leaf(w))
              && DecodeSlot(y, fields[1]) == Some(Leaf(w));
    assert ExtractFields(j, BLANK, fields) == ExtractFields(j, Message(map[0 := Leaf(w)]), fields[1..]);
    assert ExtractFields(j, Message(map[0 := Leaf(w)]), fields[1..]) == Some(Message(map[0 := Leaf(w), 1 := Leaf(w)]));
    var r := Message(map[0 := Leaf(w), 1 := Leaf(w)]);
    assert r.slots[0] != m.slots[0];
  }

  // ------------------------------------------------------------------- the loops

  class JsonObject {
    var members: map<string, Json>

    constructor ()
      ensures members == map[]
    {
      members := map[];
    }
  }

  class Memory {
    var slots: map<nat, Slot>

    constructor ()
      ensures slots == map[]
    {
      slots := map[];
    }
  }

  /** A converter's variant is within the bounds of the C types. */
  ghost predicate GoodConverter(c: Converter) {
    forall v :: c.encode(v).Some? ==> GoodVar(c.encode(v).value)
  }

  ghost predicate GoodConverters(fields: seq<Desc>)
    decreases fields
  {
    forall i :: 0 <= i < |fields| ==> if fields[i].Array? then GoodConverters(fields[i].fields)
              else GoodConverter(fields[i].convert)
  }

  method AddField(jobj: JsonObject, s: Slot, d: Desc) returns (ok: bool)
    requires d.Field? && SlotConforms(s, d) && GoodConverter(d.convert)
    modifies jobj
    ensures ok <==> EncodeSlot(s, d).Some?
    ensures jobj.members == if ok then old(jobj.members)[d.lib := EncodeSlot(s, d).value] else old(jobj.members)
  {
    var v := d.convert.encode(s.value);
    if v.None? { return false; }
    var variant := new Variant();
    variant.Set(v.value);
    var j := variant.ToJson();
    if j.None? { return false; }
    jobj.members := jobj.members[d.lib := j.value];
    return true;
  }

  lemma NextLeaf(c: Converter, values: seq<Value>, i: nat)
    requires i < |values|
    ensures EncodeLeaves(c, values[i..])
            == match (EncodeLeaf(c, values[i]), EncodeLeaves(c, values[i + 1..]))
               case (Some(j), Some(rest)) => Some([j] + rest)
               case _ => None
  {
    assert values[i..][1..] == values[i + 1..];
  }

  function Prefixed<T>(done: seq<T>, rest: Option<seq<T>>): Option<seq<T>> {
    if rest.None? then None else Some(done + rest.value)
  }

  lemma PrefixedOne<T>(done: seq<T>, x: T, rest: Option<seq<T>>)
    ensures Prefixed(done, Prefixed([x], rest)) == Prefixed(done + [x], rest)
  {
    if rest.Some? { assert done + ([x] + rest.value) == (done + [x]) + rest.value; }
  }

  lemma PrefixedEnds<T>(done: seq<T>, rest: Option<seq<T>>)
    ensures Prefixed([], rest) == rest && Prefixed(done, Some([])) == Some(done)
  {
    if rest.Some? { assert [] + rest.value == rest.value; }
    assert done + [] == done;
  }

  /** One variant is set anew for each element. */
  method AddTable(jobj: JsonObject, s: Slot, d: Desc) returns (ok: bool)
    requires d.Table? && SlotConforms(s, d) && GoodConverter(d.convert)
    modifies jobj
    ensures ok <==> EncodeSlot(s, d).Some?
    ensures jobj.members == if ok then old(jobj.members)[d.lib := EncodeSlot(s, d).value] else old(jobj.members)
  {
    var jarray: seq<Json> := [];
    var variant := new Variant();
    var i := 0;
    PrefixedEnds(jarray, EncodeLeaves(d.convert, s.values[0..]));
    while i < |s.values|
      invariant 0 <= i <= |s.values| && variant.Valid() && fresh(variant) && jobj.members == old(jobj.members)
      invariant EncodeLeaves(d.convert, s.values[0..]) == Prefixed(jarray, EncodeLeaves(d.convert, s.values[i..]))
    {
      NextLeaf(d.convert, s.values, i);
      var v := d.convert.encode(s.values[i]);
      if v.None? { assert s.values[0..] == s.values; return false; }
      variant.Set(v.value);
      var j := variant.ToJson();
      if j.None? { assert s.values[0..] == s.values; return false; }
      PrefixedOne(jarray, j.value, EncodeLeaves(d.convert, s.values[i + 1..]));
      jarray := jarray + [j.value];
      i := i + 1;
    }
    PrefixedEnds(jarray, None);
    assert s.values[0..] == s.values && s.values[i..] == [];
    jobj.members := jobj.members[d.lib := JArray(jarray)];
    return true;
  }

  lemma NextItem(items: seq<Message>, fields: seq<Desc>, i: nat)
    requires i < |items| && forall k :: 0 <= k < |items| ==> Fits(items[k], fields)
    ensures EncodeItems(items[i..], fields)
            == match (AddFields(map[], items[i], fields), EncodeItems(items[i + 1..], fields))
               case (Some(o), Some(rest)) => Some([JObject(o)] + rest)
               case _ => None
  {
    hide Fits, AddFields;
    assert items[i..][1..] == items[i + 1..];
  }

  method AddArray(jobj: JsonObject, s: Slot, d: Desc) returns (ok: bool)
    requires d.Array? && SlotConforms(s, d) && GoodConverters(d.fields)
    modifies jobj
    ensures ok <==> EncodeSlot(s, d).Some?
    ensures jobj.members == if ok then old(jobj.members)[d.lib := EncodeSlot(s, d).value] else old(jobj.members)
    decreases d, 1
  {
    hide Fits, NoOther, GoodConverters;
    var jarray: seq<Json> := [];
    var i := 0;
    PrefixedEnds(jarray, EncodeItems(s.items[0..], d.fields));
    while i < |s.items|
      invariant 0 <= i <= |s.items| && jobj.members == old(jobj.members)
      invariant EncodeItems(s.items[0..], d.fields) == Prefixed(jarray, EncodeItems(s.items[i..], d.fields))
    {
      NextItem(s.items, d.fields, i);
      var jitem := new JsonObject();
      var added := AddAll(jitem, s.items[i], d.fields);
      if !added { assert s.items[0..] == s.items; return false; }
      PrefixedOne(jarray, JObject(jitem.members), EncodeItems(s.items[i + 1..], d.fields));
      jarray := jarray + [JObject(jitem.members)];
      i := i + 1;
    }
    PrefixedEnds(jarray, None);
    assert s.items[0..] == s.items && s.items[i..] == [];
    jobj.members := jobj.members[d.lib := JArray(jarray)];
    return true;
  }

  lemma NextField(o: map<string, Json>, m: Message, fields: seq<Desc>, i: nat)
    requires Fits(m, fields) && i < |fields|
    ensures Fits(m, fields[i..]) && Fits(m, fields[i + 1..])
    ensures fields[i].offset in m.slots && SlotConforms(m.slots[fields[i].offset], fields[i])
    ensures AddFields(o, m, fields[i..])
            == match EncodeSlot(m.slots[fields[i].offset], fields[i])
               case None => None
               case Some(j) => AddFields(o[fields[i].lib := j], m, fields[i + 1..])
  {
    hide EncodeSlot, SlotConforms;
    var here, rest := fields[i..], fields[i + 1..];
    assert forall k :: 0 <= k < |here| ==> here[k] == fields[i + k];
    assert forall k :: 0 <= k < |rest| ==> rest[k] == fields[i + 1 + k];
    assert here[1..] == rest;
  }

  /** json_add_fields: the loop over the descriptors. */
  method AddAll(jobj: JsonObject, m: Message, fields: seq<Desc>) returns (ok: bool)
    requires Fits(m, fields) && GoodConverters(fields)
    modifies jobj
    ensures ok <==> AddFields(old(jobj.members), m, fields).Some?
    ensures ok ==> AddFields(old(jobj.members), m, fields) == Some(jobj.members)
    decreases fields, 2
  {
    hide EncodeSlot, SlotConforms, Fits;
    var i := 0;
    assert fields[0..] == fields;
    while i < |fields|
      invariant 0 <= i <= |fields| && Fits(m, fields[i..])
      invariant AddFields(old(jobj.members), m, fields) == AddFields(jobj.members, m, fields[i..])
    {
      NextField(jobj.members, m, fields, i);
      var d := fields[i];
      match d {
        case Field(_, _, _) => ok := AddField(jobj, m.slots[d.offset], d);
        case Array(_, _, _) => ok := AddArray(jobj, m.slots[d.offset], d);
        case Table(_, _, _) => ok := AddTable(jobj, m.slots[d.offset], d);
      }
      if !ok { return; }
      i := i + 1;
    }
    ok := true;
  }

  lemma NextJson(c: Converter, items: seq<Json>, i: nat)
    requires i < |items|
    ensures DecodeLeaves(c, items[i..])
            == match (DecodeLeaf(c, items[i]), DecodeLeaves(c, items[i + 1..]))
               case (Some(v), Some(rest)) => Some([v] + rest)
               case _ => None
  {
    assert items[i..][1..] == items[i + 1..];
  }

  /** json_extract_table. */
  method ExtractTable(items: seq<Json>, c: Converter) returns (values: Option<seq<Value>>)
    ensures values == DecodeLeaves(c, items)
  {
    var done: seq<Value> := [];
    var i := 0;
    PrefixedEnds(done, DecodeLeaves(c, items[0..]));
    while i < |items|
      invariant 0 <= i <= |items|
      invariant DecodeLeaves(c, items[0..]) == Prefixed(done, DecodeLeaves(c, items[i..]))
    {
      NextJson(c, items, i);
      var v := DecodeLeaf(c, items[i]);
      if v.None? { assert items[0..] == items; return None; }
      PrefixedOne(done, v.value, DecodeLeaves(c, items[i + 1..]));
      done := done + [v.value];
      i := i + 1;
    }
    PrefixedEnds(done, None);
    assert items[0..] == items && items[i..] == [];
    return Some(done);
  }

  lemma NextObject(items: seq<Json>, fields: seq<Desc>, i: nat)
    requires i < |items|
    ensures DecodeItems(items[i..], fields)
            == match (ExtractFields(items[i], BLANK, fields), DecodeItems(items[i + 1..], fields))
               case (Some(m), Some(rest)) => Some([m] + rest)
               case _ => None
  {
    hide ExtractFields;
    assert items[i..][1..] == items[i + 1..];
  }

  /** json_extract_array: each element into zeroed memory of its own. */
  method ExtractArray(items: seq<Json>, fields: seq<Desc>) returns (messages: Option<seq<Message>>)
    ensures messages == DecodeItems(items, fields)
    decreases fields, 3
  {
    var done: seq<Message> := [];
    var i := 0;
    PrefixedEnds(done, DecodeItems(items[0..], fields));
    while i < |items|
      invariant 0 <= i <= |items|
      invariant DecodeItems(items[0..], fields) == Prefixed(done, DecodeItems(items[i..], fields))
    {
      NextObject(items, fields, i);
      var memory := new Memory();
      var ok := ExtractAll(items[i], memory, fields);
      if !ok { assert items[0..] == items; return None; }
      PrefixedOne(done, Message(memory.slots), DecodeItems(items[i + 1..], fields));
      done := done + [Message(memory.slots)];
      i := i + 1;
    }
    PrefixedEnds(done, None);
    assert items[0..] == items && items[i..] == [];
    return Some(done);
  }

  method ExtractSlot(j: Json, d: Desc) returns (slot: Option<Slot>)
    ensures slot == DecodeSlot(j, d)
    decreases d, 4
  {
    match d
    case Field(_, _, c) =>
      var v := DecodeLeaf(c, j);
      return if v.Some? then Some(Leaf(v.value)) else None;
    case Array(_, _, fields) =>
      if !j.JArray? { return None; }
      var items := ExtractArray(j.items, fields);
      return if items.Some? then Some(Items(items.value)) else None;
    case Table(_, _, c) =>
      if !j.JArray? { return None; }
      var values := ExtractTable(j.items, c);
      return if values.Some? then Some(Leaves(values.value)) else None;
  }

  /** json_extract_fields: the loop over the descriptors. */
  method ExtractAll(j: Json, memory: Memory, fields: seq<Desc>) returns (ok: bool)
    modifies memory
    ensures ok <==> ExtractFields(j, Message(old(memory.slots)), fields).Some?
    ensures ok ==> ExtractFields(j, Message(old(memory.slots)), fields) == Some(Message(memory.slots))
    decreases fields, 2
  {
    hide DecodeSlot, Member;
    var i := 0;
    assert fields[0..] == fields;
    while i < |fields|
      invariant 0 <= i <= |fields|
      invariant ExtractFields(j, Message(old(memory.slots)), fields)
                == ExtractFields(j, Message(memory.slots), fields[i..])
    {
      assert fields[i..][1..] == fields[i + 1..];
      var x := Member(j, fields[i].lib);
      if x.None? { return false; }
      var slot := ExtractSlot(x.value, fields[i]);
      if slot.None? { return false; }
      memory.slots := memory.slots[fields[i].offset := slot.value];
      i := i + 1;
    }
    return true;
  }
}
