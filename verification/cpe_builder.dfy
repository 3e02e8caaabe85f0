/** The Builder demo of CPEBuilder.kt: `BasicCPEBuilder` keeps six mutable
    fields with defaults, each chained setter overwrites one of them, and
    `build` copies them into an immutable `CPE`. The director
    `CPEConfigurationDirector` runs a fixed chain of setters. No setter
    validates its argument. */
module CpeBuilder {
  import opened Platform

  /** The `CPE` data class. */
  datatype Cpe = Cpe(model: string, brand: string, hasWifi6: bool,
                     lanPorts: Int32, usbPorts: Int32, externalAntennas: bool)

  /** The private fields of a `BasicCPEBuilder`. */
  datatype Builder = Builder(model: string, brand: string, hasWifi6: bool,
                             lanPorts: Int32, usbPorts: Int32, externalAntennas: bool)

  /** A new builder: empty strings, `false`, zero. */
  const FreshBuilder: Builder := Builder("", "", false, 0, 0, false)

  /** One chained setter call with its argument. */
  datatype Setting =
    | Model(model: string)
    | Brand(brand: string)
    | Wifi6Support(hasWifi6: bool)
    | LanPorts(lanPorts: Int32)
    | UsbPorts(usbPorts: Int32)
    | ExternalAntennas(externalAntennas: bool)

  /** The builder field a setter writes. */
  datatype Field = ModelField | BrandField | Wifi6Field | LanPortsField | UsbPortsField | AntennasField

  function FieldOf(s: Setting): Field {
    match s
    case Model(_) => ModelField
    case Brand(_) => BrandField
    case Wifi6Support(_) => Wifi6Field
    case LanPorts(_) => LanPortsField
    case UsbPorts(_) => UsbPortsField
    case ExternalAntennas(_) => AntennasField
  }

  /** Whether builder `b` holds the value setting `s` writes. */
  predicate Holds(b: Builder, s: Setting) {
    match s
    case Model(v) => b.model == v
    case Brand(v) => b.brand == v
    case Wifi6Support(v) => b.hasWifi6 == v
    case LanPorts(v) => b.lanPorts == v
    case UsbPorts(v) => b.usbPorts == v
    case ExternalAntennas(v) => b.externalAntennas == v
  }

  /** Whether two builders agree on field `f`. */
  predicate SameField(b1: Builder, b2: Builder, f: Field) {
    match f
    case ModelField => b1.model == b2.model
    case BrandField => b1.brand == b2.brand
    case Wifi6Field => b1.hasWifi6 == b2.hasWifi6
    case LanPortsField => b1.lanPorts == b2.lanPorts
    case UsbPortsField => b1.usbPorts == b2.usbPorts
    case AntennasField => b1.externalAntennas == b2.externalAntennas
  }

  /** A setter call: the written field holds the argument afterwards, and
      every other field is unchanged. */
  function Apply(b: Builder, s: Setting): (b': Builder)
    ensures Holds(b', s)
    ensures forall f :: f != FieldOf(s) ==> SameField(b', b, f)
  {
    match s
    case Model(v) => b.(model := v)
    case Brand(v) => b.(brand := v)
    case Wifi6Support(v) => b.(hasWifi6 := v)
    case LanPorts(v) => b.(lanPorts := v)
    case UsbPorts(v) => b.(usbPorts := v)
    case ExternalAntennas(v) => b.(externalAntennas := v)
  }

  /** A chain of setter calls. */
  function ApplyAll(b: Builder, ss: seq<Setting>): Builder
    decreases |ss|
  {
    if |ss| == 0 then b else ApplyAll(Apply(b, ss[0]), ss[1..])
  }

  /** The position of the last setting in `ss` that writes field `f`. */
  function LastWrite(ss: seq<Setting>, f: Field): (i: Option<nat>)
    ensures i.Some? ==> i.value < |ss| && FieldOf(ss[i.value]) == f
    ensures i.Some? ==> forall j :: i.value < j < |ss| ==> FieldOf(ss[j]) != f
    ensures i.None? ==> forall j :: 0 <= j < |ss| ==> FieldOf(ss[j]) != f
  {
    if |ss| == 0 then None
    else if FieldOf(ss[|ss| - 1]) == f then Some(|ss| - 1)
    else LastWrite(ss[..|ss| - 1], f)
  }

  /** A chain of setters ending in `s` leaves `s`'s value in place. */
  lemma {:induction false} ApplyAllSnoc(b: Builder, ss: seq<Setting>, s: Setting)
    ensures ApplyAll(b, ss + [s]) == Apply(ApplyAll(b, ss), s)
    decreases |ss|
  {
    if |ss| == 0 {
      assert ([] + [s])[1..] == [];
    } else {
      assert (ss + [s])[1..] == ss[1..] + [s];
      ApplyAllSnoc(Apply(b, ss[0]), ss[1..], s);
    }
  }

  /** The last write wins: after a chain of setters each field holds the
      value of the last setter that wrote it, or its value before the chain
      when none did. */
  lemma {:induction false} LastWriteWins(b: Builder, ss: seq<Setting>, f: Field)
    ensures match LastWrite(ss, f)
            case Some(i) => Holds(ApplyAll(b, ss), ss[i])
            case None => SameField(ApplyAll(b, ss), b, f)
    decreases |ss|
  {
    if |ss| > 0 {
      var init := ss[..|ss| - 1];
      var last := ss[|ss| - 1];
      assert ss == init + [last];
      ApplyAllSnoc(b, init, last);
      LastWriteWins(b, init, f);
      if FieldOf(last) != f {
        var before := ApplyAll(b, init);
        assert SameField(Apply(before, last), before, f);
        match LastWrite(init, f)
        case Some(i) =>
          assert ss[i] == init[i];
          SameFieldKeepsHolds(Apply(before, last), before, init[i]);
        case None =>
      }
    }
  }

  lemma SameFieldKeepsHolds(b1: Builder, b2: Builder, s: Setting)
    requires SameField(b1, b2, FieldOf(s)) && Holds(b2, s)
    ensures Holds(b1, s)
  {
  }

  /** `build()`: a `CPE` carrying exactly the builder's fields, so the
      builder can be recovered from it. */
  function Build(b: Builder): (c: Cpe)
    ensures Builder(c.model, c.brand, c.hasWifi6, c.lanPorts, c.usbPorts, c.externalAntennas) == b
  {
    Cpe(b.model, b.brand, b.hasWifi6, b.lanPorts, b.usbPorts, b.externalAntennas)
  }

  /** The director's chain in `configureBasicCPE`. */
  const BasicSettings: seq<Setting> := [
    Model("BasicRouter 100"), Brand("GenericNetworking"), Wifi6Support(false),
    LanPorts(4), UsbPorts(1), ExternalAntennas(false)
  ]

  function ConfigureBasicCpe(b: Builder): (b': Builder)
    ensures forall s :: s in BasicSettings ==> Holds(b', s)
  {
    var b' := ApplyAll(b, BasicSettings);
    forall s | s in BasicSettings ensures Holds(b', s) {
      LastWriteWins(b, BasicSettings, FieldOf(s));
    }
    b'
  }

  /** The director writes every field, so what was set before does not
      show: any builder it configures builds the same `CPE`. */
  lemma DirectorOverridesEverything(b: Builder)
    ensures Build(ConfigureBasicCpe(b)) == Cpe("BasicRouter 100", "GenericNetworking", false, 4, 1, false)
  {
    var b' := ConfigureBasicCpe(b);
    assert Holds(b', BasicSettings[0]) && Holds(b', BasicSettings[1]) && Holds(b', BasicSettings[2]);
    assert Holds(b', BasicSettings[3]) && Holds(b', BasicSettings[4]) && Holds(b', BasicSettings[5]);
  }

  /** Setters take any `Int`, negative port counts included. */
  lemma NegativePortsAccepted()
    ensures Build(Apply(FreshBuilder, LanPorts(-1))).lanPorts == -1
  {
  }

  /** A builder nobody configured builds the all-default `CPE`. */
  lemma FreshBuildsDefaults()
    ensures Build(FreshBuilder) == Cpe("", "", false, 0, 0, false)
  {
  }
}
