/** The Decorator demo of Decorator.kt: a basic router component and four
    ways of wrapping an `IRouter` in an object that appends to its features
    text. A decorated router is an onion of wrappers around the basic
    router; every wrapper delegates to the router it wraps. */
module RouterDecorator {
  import opened Platform

  /** The four decorations: the two `RouterDecorator` values and the two
      extension functions. */
  datatype Decoration = VpnDecorator | ParentalControlDecorator | WithVpn | WithParentalControl

  /** `MyBasicIRouter`, or a wrapper object around another router. */
  datatype Router = Basic | Decorated(inner: Router, layer: Decoration)

  const BaseFeatures: string := "Basic Wi-Fi connectivity"

  /** The text a decoration appends to the features of the router it wraps.
      `withParentalControl` appends the VPN text, as written. */
  function Suffix(d: Decoration): string {
    match d
    case VpnDecorator => ", VPN support"
    case ParentalControlDecorator => ", Parental control"
    case WithVpn => ", VPN support"
    case WithParentalControl => ", VPN support"
  }

  /** `features()`: each wrapper adds text, so the features grow with
      every layer. */
  function Features(r: Router): (s: string)
    ensures |s| >= |BaseFeatures|
    ensures r.Decorated? ==> |s| > |Features(r.inner)|
  {
    match r
    case Basic => BaseFeatures
    case Decorated(inner, d) => Features(inner) + Suffix(d)
  }

  /** The decorations of a router, innermost first. */
  function Layers(r: Router): seq<Decoration> {
    match r
    case Basic => []
    case Decorated(inner, d) => Layers(inner) + [d]
  }

  /** Wrap `r` in each decoration of `ds` in turn. */
  function DecorateAll(r: Router, ds: seq<Decoration>): Router
    decreases |ds|
  {
    if |ds| == 0 then r else DecorateAll(Decorated(r, ds[0]), ds[1..])
  }

  /** The texts of a list of decorations, in order. */
  function Suffixes(ds: seq<Decoration>): string {
    if |ds| == 0 then "" else Suffixes(ds[..|ds| - 1]) + Suffix(ds[|ds| - 1])
  }

  /** A router's features are determined by its layers: the basic text
      followed by each layer's text, innermost first. */
  lemma {:induction false} FeaturesFromLayers(r: Router)
    ensures Features(r) == BaseFeatures + Suffixes(Layers(r))
  {
    match r
    case Basic =>
    case Decorated(inner, d) =>
      FeaturesFromLayers(inner);
      SuffixesSnoc(Layers(inner), d);
      ConcatAssoc(BaseFeatures, Suffixes(Layers(inner)), Suffix(d));
  }


  lemma SuffixesSnoc(ds: seq<Decoration>, d: Decoration)
    ensures Suffixes(ds + [d]) == Suffixes(ds) + Suffix(d)
  {
    assert (ds + [d])[..|ds|] == ds;
  }

  /** The basic router's text stays at the front of every decorated
      router's features. */
  lemma BaseFeaturesFirst(r: Router)
    ensures Features(r)[..|BaseFeatures|] == BaseFeatures
  {
    FeaturesFromLayers(r);
  }

  /** Decorating adds the new layers outside the existing ones. */
  lemma {:induction false} DecorateAllLayers(r: Router, ds: seq<Decoration>)
    ensures Layers(DecorateAll(r, ds)) == Layers(r) + ds
    decreases |ds|
  {
    if |ds| > 0 {
      DecorateAllLayers(Decorated(r, ds[0]), ds[1..]);
      assert Layers(r) + [ds[0]] + ds[1..] == Layers(r) + ds;
    }
  }

  /** Unwrapping undoes wrapping: a router is rebuilt from its layers, and
      the layers of a router built from a list are that list. */
  lemma {:induction false} LayersRoundTrip(r: Router, ds: seq<Decoration>)
    ensures DecorateAll(Basic, Layers(r)) == r
    ensures Layers(DecorateAll(Basic, ds)) == ds
  {
    DecorateAllLayers(Basic, ds);
    RebuildFromLayers(r, Basic, []);
  }

  lemma {:induction false} RebuildFromLayers(r: Router, base: Router, rest: seq<Decoration>)
    ensures DecorateAll(base, Layers(r) + rest) == DecorateAll(DecorateAll(base, Layers(r)), rest)
    ensures r.Basic? ==> DecorateAll(base, Layers(r)) == base
    ensures base == Basic ==> DecorateAll(base, Layers(r)) == r
    decreases r
  {
    match r
    case Basic =>
      assert Layers(r) + rest == rest;
    case Decorated(inner, d) =>
      RebuildFromLayers(inner, base, [d] + rest);
      RebuildFromLayers(inner, base, [d]);
      assert Layers(inner) + [d] + rest == Layers(inner) + ([d] + rest);
      assert DecorateAll(DecorateAll(base, Layers(inner)), [d]) ==
             Decorated(DecorateAll(base, Layers(inner)), d);
      assert DecorateAll(DecorateAll(base, Layers(inner)), [d] + rest) ==
             DecorateAll(Decorated(DecorateAll(base, Layers(inner)), d), rest) by {
        assert ([d] + rest)[1..] == rest;
      }
  }

  /** A router built from a list of decorations advertises the basic text
      followed by the list's texts in the order they were applied. */
  lemma DecorateAllFeatures(ds: seq<Decoration>)
    ensures Features(DecorateAll(Basic, ds)) == BaseFeatures + Suffixes(ds)
  {
    LayersRoundTrip(Basic, ds);
    FeaturesFromLayers(DecorateAll(Basic, ds));
  }

  /** As written, `withParentalControl` is indistinguishable from `withVPN`
      on any router, and differs from `parentalControlDecorator`. */
  lemma WithParentalControlActsAsWithVpn(r: Router)
    ensures Features(Decorated(r, WithParentalControl)) == Features(Decorated(r, WithVpn))
    ensures Features(Decorated(r, WithParentalControl)) != Features(Decorated(r, ParentalControlDecorator))
  {
    assert |Suffix(WithParentalControl)| != |Suffix(ParentalControlDecorator)|;
  }

  /** The two ways of adding a VPN agree everywhere. */
  lemma VpnDecorationsAgree(r: Router)
    ensures Features(Decorated(r, VpnDecorator)) == Features(Decorated(r, WithVpn))
  {
  }
}
