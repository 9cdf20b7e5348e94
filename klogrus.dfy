/**
 * log/klogrus/logrus_wrapper.go: the logrus back-end of the logger. A klogrus
 * is a logrus field logger plus a dotted name; Named extends the name and
 * records it in the "logger" field, With converts structured fields into
 * logrus fields through a per-type converter table.
 */
module KLogrus {

  import opened Kube
  import opened LogField

  /**
   * A logrus field value: an integer of a Go integer type (signedness and
   * bit width), a bool, a string, an interface value passed through as is,
   * or the value of a type whose conversion is not modelled.
   */
  datatype Value =
    | IntValue(signed: bool, width: Width, i: int)
    | BoolValue(b: bool)
    | StringValue(s: string)
    | InterfaceValue(v: Iface)
    | Unconverted(f: Field)

  /** logrus.Fields. */
  type Fields = map<string, Value>

  /** A logrus field logger: the logger it derives from and the fields accumulated on it. */
  datatype Core = Core(root: nat, fields: Fields)

  datatype Klogrus = Klogrus(core: Core, name: string)

  /** WithFields: the same root, with the new fields overriding the accumulated ones. */
  function WithFields(c: Core, lf: Fields): (r: Core)
    ensures r.root == c.root
    ensures forall k :: k in r.fields <==> k in c.fields || k in lf
    ensures forall k :: k in lf ==> r.fields[k] == lf[k]
    ensures forall k :: k in c.fields && k !in lf ==> r.fields[k] == c.fields[k]
  {
    Core(c.root, c.fields + lf)
  }

  /** New wraps a logrus logger with no name. */
  function New(root: nat): (r: Klogrus)
    ensures r.name == "" && r.core == Core(root, map[])
  {
    Klogrus(Core(root, map[]), "")
  }

  /**
   * Named(s): the name is s under an unnamed logger and "<name>.<s>"
   * otherwise; the "logger" field is set to it.
   */
  function Named(k: Klogrus, s: string): (r: Klogrus)
    ensures k.name == "" ==> r.name == s
    ensures k.name != "" ==> r.name == k.name + "." + s
    ensures r.core == WithFields(k.core, map["logger" := StringValue(r.name)])
    ensures r.core.fields["logger"] == StringValue(r.name)
  {
    var name := if k.name != "" then k.name + "." + s else s;
    Klogrus(WithFields(k.core, map["logger" := StringValue(name)]), name)
  }

  /** The segments joined with ".". */
  function Join(segs: seq<string>): string
    decreases |segs|
  {
    if segs == [] then ""
    else if |segs| == 1 then segs[0]
    else Join(segs[..|segs| - 1]) + "." + segs[|segs| - 1]
  }

  /** Naming in turn by each segment. */
  function NamedAll(k: Klogrus, segs: seq<string>): Klogrus
    decreases |segs|
  {
    if segs == [] then k else Named(NamedAll(k, segs[..|segs| - 1]), segs[|segs| - 1])
  }

  /**
   * From an unnamed logger, naming by non-empty segments in turn gives the
   * segments joined with ".", and the "logger" field holds that name.
   */
  lemma {:induction false} NamedJoins(k: Klogrus, segs: seq<string>)
    requires k.name == ""
    requires forall i :: 0 <= i < |segs| ==> segs[i] != ""
    ensures NamedAll(k, segs).name == Join(segs)
    ensures segs != [] ==> NamedAll(k, segs).name != ""
    ensures segs != [] ==> NamedAll(k, segs).core.fields["logger"] == StringValue(Join(segs))
    decreases |segs|
  {
    if segs != [] {
      NamedJoins(k, segs[..|segs| - 1]);
    }
  }

  /** Naming a new logger "a", then "b", "c", "d" gives "a.b.c.d". */
  lemma NamedFourTimes(root: nat)
    ensures Named(Named(Named(Named(New(root), "a"), "b"), "c"), "d").name == "a.b.c.d"
    ensures New(root).name == ""
  {
  }

  /** The bit widths of Go's sized integer types. */
  datatype Width = W8 | W16 | W32 | W64

  /** 2 to the power of the width. */
  function Modulus(w: Width): int
  {
    match w
    case W8 => 0x100
    case W16 => 0x1_0000
    case W32 => 0x1_0000_0000
    case W64 => 0x1_0000_0000_0000_0000
  }

  /** Go's conversion of an int64 to the unsigned integer type of width w. */
  function Unsigned(x: int, w: Width): int
  {
    x % Modulus(w)
  }

  /**
   * Go's conversion of an int64 to the signed integer type of width w: two's
   * complement truncation, the unsigned truncation shifted by half the range.
   */
  function Signed(x: int, w: Width): int
  {
    Unsigned(x + Modulus(w) / 2, w) - Modulus(w) / 2
  }

  /** An unsigned narrowing lands in [0, 2^width), agrees modulo 2^width, and keeps a value in range. */
  lemma UnsignedNarrowing(x: int, w: Width)
    ensures 0 <= Unsigned(x, w) < Modulus(w)
    ensures (Unsigned(x, w) - x) % Modulus(w) == 0
    ensures 0 <= x < Modulus(w) ==> Unsigned(x, w) == x
  {
    match w
    case W8 => assert Modulus(w) == 0x100;
    case W16 => assert Modulus(w) == 0x1_0000;
    case W32 => assert Modulus(w) == 0x1_0000_0000;
    case W64 => assert Modulus(w) == 0x1_0000_0000_0000_0000;
  }

  /**
   * A signed narrowing lands in the width's range, agrees with its argument
   * modulo 2^width, and keeps a value already in range.
   */
  lemma SignedNarrowing(x: int, w: Width)
    ensures -(Modulus(w) / 2) <= Signed(x, w) < Modulus(w) / 2
    ensures (Signed(x, w) - x) % Modulus(w) == 0
    ensures -(Modulus(w) / 2) <= x < Modulus(w) / 2 ==> Signed(x, w) == x
  {
    var h := Modulus(w) / 2;
    assert Modulus(w) == 2 * h by {
      match w
      case W8 =>
      case W16 =>
      case W32 =>
      case W64 =>
    }
    UnsignedNarrowing(x + h, w);
    assert Signed(x, w) - x == Unsigned(x + h, w) - (x + h);
  }

  /** What one converter entry does to the logrus fields. */
  datatype Conversion = Put(key: string, value: Value) | NoEntry | Panics

  /** The Go integer types of the converter table: int64 down to int8, uint64 down to uint8, and uintptr. */
  predicate IntegerType(t: FieldType)
  {
    t in {Int64Type, Int32Type, Int16Type, Int8Type, Uint64Type, Uint32Type, Uint16Type, Uint8Type, UintptrType}
  }

  /**
   * The converter table: nothing for Unknown and Skip, a panic for
   * Namespace, the interface value for array, object, reflect and error
   * fields, Integer == 1 for a bool, the Integer narrowed to the field's
   * width, the String for a string (uintptr is taken to be 64 bits wide), and
   * an unconverted value for the types whose conversions are not modelled.
   */
  function Convert(f: Field): (r: Conversion)
    ensures r.Panics? <==> f.fieldType == NamespaceType
    ensures r.NoEntry? <==> f.fieldType == UnknownType || f.fieldType == SkipType
    ensures r.Put? ==> r.key == f.key
    ensures f.fieldType == BoolType ==> r == Put(f.key, BoolValue(f.integer == 1))
    ensures f.fieldType == StringType ==> r == Put(f.key, StringValue(f.str))
    ensures r.Put? && r.value.IntValue? <==> IntegerType(f.fieldType)
  {
    var i := f.integer as int;
    match f.fieldType
    case UnknownType => NoEntry
    case SkipType => NoEntry
    case NamespaceType => Panics
    case ArrayMarshalerType => Put(f.key, InterfaceValue(f.iface))
    case ObjectMarshalerType => Put(f.key, InterfaceValue(f.iface))
    case ReflectType => Put(f.key, InterfaceValue(f.iface))
    case ErrorType => Put(f.key, InterfaceValue(f.iface))
    case BoolType => Put(f.key, BoolValue(f.integer == 1))
    case Int64Type => Put(f.key, IntValue(true, W64, i))
    case Int32Type => Put(f.key, IntValue(true, W32, Signed(i, W32)))
    case Int16Type => Put(f.key, IntValue(true, W16, Signed(i, W16)))
    case Int8Type => Put(f.key, IntValue(true, W8, Signed(i, W8)))
    case Uint64Type => Put(f.key, IntValue(false, W64, Unsigned(i, W64)))
    case Uint32Type => Put(f.key, IntValue(false, W32, Unsigned(i, W32)))
    case Uint16Type => Put(f.key, IntValue(false, W16, Unsigned(i, W16)))
    case Uint8Type => Put(f.key, IntValue(false, W8, Unsigned(i, W8)))
    case UintptrType => Put(f.key, IntValue(false, W64, Unsigned(i, W64)))
    case StringType => Put(f.key, StringValue(f.str))
    case _ => Put(f.key, Unconverted(f))
  }

  /**
   * An integer entry records the signedness and width of the field's own Go
   * type, and is the Integer narrowed to it, so it lies in that type's range.
   */
  lemma {:induction false} IntegerEntriesInRange(f: Field)
    requires Convert(f).Put? && Convert(f).value.IntValue?
    ensures var v := Convert(f).value;
      && (v.signed ==> -(Modulus(v.width) / 2) <= v.i < Modulus(v.width) / 2)
      && (!v.signed ==> 0 <= v.i < Modulus(v.width))
      && (v.i - f.integer as int) % Modulus(v.width) == 0
    ensures var v := Convert(f).value;
      && (v.signed ==> f.fieldType == SignedType(v.width))
      && (!v.signed ==> f.fieldType == UnsignedType(v.width) || (v.width == W64 && f.fieldType == UintptrType))
  {
    var v := Convert(f).value;
    if v.signed {
      SignedNarrowing(f.integer as int, v.width);
    } else {
      UnsignedNarrowing(f.integer as int, v.width);
    }
  }

  /** The conversion puts an integer of the given signedness and width under the field's key. */
  predicate IntEntry(c: Conversion, key: string, signed: bool, w: Width)
  {
    c.Put? && c.key == key && c.value.IntValue? && c.value.signed == signed && c.value.width == w
  }

  /** The Go type a signed narrowing of width w converts to. */
  function SignedType(w: Width): FieldType
  {
    match w
    case W8 => Int8Type
    case W16 => Int16Type
    case W32 => Int32Type
    case W64 => Int64Type
  }

  /** The Go type an unsigned narrowing of width w converts to. */
  function UnsignedType(w: Width): FieldType
  {
    match w
    case W8 => Uint8Type
    case W16 => Uint16Type
    case W32 => Uint32Type
    case W64 => Uint64Type
  }

  /** A field of a signed integer type is put as a signed integer of its width, narrowed. */
  lemma SignedEntry(f: Field, w: Width)
    requires f.fieldType == SignedType(w)
    ensures IntEntry(Convert(f), f.key, true, w)
    ensures -(Modulus(w) / 2) <= Convert(f).value.i < Modulus(w) / 2
    ensures (Convert(f).value.i - f.integer as int) % Modulus(w) == 0
  {
    SignedNarrowing(f.integer as int, w);
  }

  /** A field of an unsigned integer type (or uintptr, at 64 bits) is put as an unsigned integer of its width, narrowed. */
  lemma UnsignedEntry(f: Field, w: Width)
    requires f.fieldType == UnsignedType(w) || (w == W64 && f.fieldType == UintptrType)
    ensures IntEntry(Convert(f), f.key, false, w)
    ensures 0 <= Convert(f).value.i < Modulus(w)
    ensures (Convert(f).value.i - f.integer as int) % Modulus(w) == 0
  {
    UnsignedNarrowing(f.integer as int, w);
  }

  /**
   * The signed integer entries as their Go type determines them: int64 keeps
   * the Integer; int32, int16 and int8 keep the one value of that type's range
   * congruent to the Integer modulo 2^bits.
   */
  lemma {:induction false} SignedEntriesByType(f: Field)
    ensures f.fieldType == Int64Type ==> IntEntry(Convert(f), f.key, true, W64) && Convert(f).value.i == f.integer as int
    ensures f.fieldType == Int32Type ==>
      (IntEntry(Convert(f), f.key, true, W32)
       && -0x8000_0000 <= Convert(f).value.i < 0x8000_0000
       && (Convert(f).value.i - f.integer as int) % 0x1_0000_0000 == 0)
    ensures f.fieldType == Int16Type ==>
      (IntEntry(Convert(f), f.key, true, W16)
       && -0x8000 <= Convert(f).value.i < 0x8000
       && (Convert(f).value.i - f.integer as int) % 0x1_0000 == 0)
    ensures f.fieldType == Int8Type ==>
      (IntEntry(Convert(f), f.key, true, W8)
       && -0x80 <= Convert(f).value.i < 0x80
       && (Convert(f).value.i - f.integer as int) % 0x100 == 0)
  {
    match f.fieldType {
      case Int32Type =>
        SignedEntry(f, W32);
        assert Modulus(W32) == 0x1_0000_0000;
      case Int16Type =>
        SignedEntry(f, W16);
        assert Modulus(W16) == 0x1_0000;
      case Int8Type =>
        SignedEntry(f, W8);
        assert Modulus(W8) == 0x100;
      case _ =>
    }
  }

  /**
   * The unsigned integer entries as their Go type determines them: uint64,
   * uintptr (64 bits wide here), uint32, uint16 and uint8 keep the one value
   * of [0, 2^bits) congruent to the Integer modulo 2^bits.
   */
  lemma {:induction false} UnsignedEntriesByType(f: Field)
    ensures f.fieldType == Uint64Type ==>
      (IntEntry(Convert(f), f.key, false, W64)
       && 0 <= Convert(f).value.i < 0x1_0000_0000_0000_0000
       && (Convert(f).value.i - f.integer as int) % 0x1_0000_0000_0000_0000 == 0)
    ensures f.fieldType == UintptrType ==>
      (IntEntry(Convert(f), f.key, false, W64)
       && 0 <= Convert(f).value.i < 0x1_0000_0000_0000_0000
       && (Convert(f).value.i - f.integer as int) % 0x1_0000_0000_0000_0000 == 0)
    ensures f.fieldType == Uint32Type ==>
      (IntEntry(Convert(f), f.key, false, W32)
       && 0 <= Convert(f).value.i < 0x1_0000_0000
       && (Convert(f).value.i - f.integer as int) % 0x1_0000_0000 == 0)
    ensures f.fieldType == Uint16Type ==>
      (IntEntry(Convert(f), f.key, false, W16)
       && 0 <= Convert(f).value.i < 0x1_0000
       && (Convert(f).value.i - f.integer as int) % 0x1_0000 == 0)
    ensures f.fieldType == Uint8Type ==>
      (IntEntry(Convert(f), f.key, false, W8)
       && 0 <= Convert(f).value.i < 0x100
       && (Convert(f).value.i - f.integer as int) % 0x100 == 0)
  {
    match f.fieldType {
      case Uint64Type =>
        UnsignedEntry(f, W64);
        assert Modulus(W64) == 0x1_0000_0000_0000_0000;
      case UintptrType =>
        UnsignedEntry(f, W64);
        assert Modulus(W64) == 0x1_0000_0000_0000_0000;
      case Uint32Type =>
        UnsignedEntry(f, W32);
        assert Modulus(W32) == 0x1_0000_0000;
      case Uint16Type =>
        UnsignedEntry(f, W16);
        assert Modulus(W16) == 0x1_0000;
      case Uint8Type =>
        UnsignedEntry(f, W8);
        assert Modulus(W8) == 0x100;
      case _ =>
    }
  }

  /** The logrus fields With builds: conversions in field order into one map, None when one panics. */
  function Collect(fields: seq<Field>): Option<Fields>
    decreases |fields|
  {
    if fields == [] then Some(map[])
    else
      match Collect(fields[..|fields| - 1])
      case None => None
      case Some(lf) =>
        match Convert(fields[|fields| - 1])
        case Put(k, v) => Some(lf[k := v])
        case NoEntry => Some(lf)
        case Panics => None
  }

  /** With panics exactly when one of the fields is of Namespace type. */
  lemma {:induction false} CollectPanics(fields: seq<Field>)
    ensures Collect(fields).None? <==> exists i :: 0 <= i < |fields| && fields[i].fieldType == NamespaceType
    decreases |fields|
  {
    if fields != [] {
      var init := fields[..|fields| - 1];
      CollectPanics(init);
      assert forall i :: 0 <= i < |init| ==> init[i] == fields[i];
      if Collect(init).None? {
        var i :| 0 <= i < |init| && init[i].fieldType == NamespaceType;
        assert fields[i].fieldType == NamespaceType;
      }
    }
  }

  /**
   * The value of a key is the one converted from the last field that puts
   * an entry under that key: a later field overwrites an earlier one.
   */
  lemma {:induction false} LastFieldWins(fields: seq<Field>, i: nat)
    requires Collect(fields).Some?
    requires i < |fields| && Convert(fields[i]).Put?
    requires forall j :: i < j < |fields| ==> !(Convert(fields[j]).Put? && fields[j].key == fields[i].key)
    ensures fields[i].key in Collect(fields).value
    ensures Collect(fields).value[fields[i].key] == Convert(fields[i]).value
    decreases |fields|
  {
    var init := fields[..|fields| - 1];
    if i < |fields| - 1 {
      assert init[i] == fields[i];
      assert forall j :: i < j < |init| ==> init[j] == fields[j];
      LastFieldWins(init, i);
    }
  }

  /** A key has an entry exactly when some field puts one under it. */
  lemma {:induction false} CollectKeys(fields: seq<Field>, key: string)
    requires Collect(fields).Some?
    ensures key in Collect(fields).value <==> exists i :: 0 <= i < |fields| && Convert(fields[i]).Put? && fields[i].key == key
    decreases |fields|
  {
    if fields != [] {
      var init := fields[..|fields| - 1];
      CollectKeys(init, key);
      assert forall i :: 0 <= i < |init| ==> init[i] == fields[i];
      if key in Collect(init).value {
        var i :| 0 <= i < |init| && Convert(init[i]).Put? && init[i].key == key;
        assert Convert(fields[i]).Put? && fields[i].key == key;
      }
    }
  }

  /** The outcome of With: the derived logger, or a panic. */
  datatype Derived = Derived(logger: Klogrus) | Panicked

  /**
   * With: convert the fields in order into one logrus.Fields map, derive the
   * core with them, and keep the name.
   */
  method With(k: Klogrus, fields: seq<Field>) returns (r: Derived)
    ensures Collect(fields).None? <==> r.Panicked?
    ensures r.Derived? ==> r.logger == Klogrus(WithFields(k.core, Collect(fields).value), k.name)
    ensures r.Derived? ==> r.logger.name == k.name && r.logger.core.root == k.core.root
  {
    var lfields: Fields := map[];
    var i := 0;
    while i < |fields|
      invariant 0 <= i <= |fields|
      invariant Collect(fields[..i]) == Some(lfields)
    {
      assert fields[..i + 1][..i] == fields[..i];
      match Convert(fields[i]) {
        case Put(key, v) =>
          lfields := lfields[key := v];
        case NoEntry =>
        case Panics =>
          assert Collect(fields[..i + 1]).None?;
          CollectPanics(fields[..i + 1]);
          CollectPanics(fields);
          var j :| 0 <= j < i + 1 && fields[..i + 1][j].fieldType == NamespaceType;
          assert fields[j].fieldType == NamespaceType;
          return Panicked;
      }
      i := i + 1;
    }
    assert fields[..i] == fields;
    r := Derived(Klogrus(WithFields(k.core, lfields), k.name));
  }
}
