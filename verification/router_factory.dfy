/** The Abstract Factory demo of UIFactory.kt: three concrete factories,
    each able to make exactly one of the three router families and throwing
    `UnsupportedOperationException` for the other two, and the
    `FactoryRouterCreator` that picks a factory by `TYPE` and delegates to
    it. The thrown exception is modelled as a result value. */
module RouterFactory {

  /** `RouterFactory.TYPE`, which also names the three product families
      (`BasicRouter`, `GamingRouter`, `EnterpriseRouter`). */
  datatype RouterType = Basic | Gaming | Enterprise

  /** The concrete products. */
  datatype Product = BasicNetgearRouter | GamingAsusRouter | EnterpriseCiscoRouter

  /** The abstract class a product extends. */
  function Family(p: Product): RouterType {
    match p
    case BasicNetgearRouter => Basic
    case GamingAsusRouter => Gaming
    case EnterpriseCiscoRouter => Enterprise
  }

  datatype ConcreteFactory = BasicRouterFactory | GamingRouterFactory | EnterpriseRouterFactory

  /** The one family a concrete factory can make. */
  function Makes(f: ConcreteFactory): RouterType {
    match f
    case BasicRouterFactory => Basic
    case GamingRouterFactory => Gaming
    case EnterpriseRouterFactory => Enterprise
  }

  /** The outcome of a `create…Router()` call. */
  datatype Creation = Created(product: Product) | UnsupportedOperation

  /** `createBasicRouter`, `createGamingRouter` or `createEnterpriseRouter`
      (chosen by `family`) on a concrete factory: only the factory's own
      family is made, every other call throws. */
  function Create(f: ConcreteFactory, family: RouterType): (c: Creation)
    ensures c.Created? <==> family == Makes(f)
    ensures c.Created? ==> Family(c.product) == family
  {
    match (f, family)
    case (BasicRouterFactory, Basic) => Created(BasicNetgearRouter)
    case (GamingRouterFactory, Gaming) => Created(GamingAsusRouter)
    case (EnterpriseRouterFactory, Enterprise) => Created(EnterpriseCiscoRouter)
    case _ => UnsupportedOperation
  }

  /** A `FactoryRouterCreator`: the concrete factory it chose. */
  datatype Creator = Creator(factory: ConcreteFactory)

  /** The `when` in the `FactoryRouterCreator` constructor. */
  function NewCreator(t: RouterType): (c: Creator)
    ensures Makes(c.factory) == t
  {
    match t
    case Basic => Creator(BasicRouterFactory)
    case Gaming => Creator(GamingRouterFactory)
    case Enterprise => Creator(EnterpriseRouterFactory)
  }

  /** Every creator method delegates to the chosen factory. */
  function CreatorCreate(c: Creator, family: RouterType): (r: Creation)
    ensures r.Created? <==> family == Makes(c.factory)
    ensures r.Created? ==> Family(r.product) == family
  {
    Create(c.factory, family)
  }

  /** Choosing a factory by type and asking which type it makes gives the
      type back, and each type has its own factory. */
  lemma CreatorChoiceRoundTrip(t: RouterType, f: ConcreteFactory)
    ensures Makes(NewCreator(t).factory) == t
    ensures NewCreator(Makes(f)).factory == f
  {
  }

  /** A creator built for type `t` makes the `t` product, and calling any
      other `create…Router()` on it throws. */
  lemma ExactlyOneFamilySucceeds(t: RouterType, family: RouterType)
    ensures CreatorCreate(NewCreator(t), family).Created? <==> family == t
    ensures CreatorCreate(NewCreator(t), t) == Created(match t
                                                         case Basic => BasicNetgearRouter
                                                         case Gaming => GamingAsusRouter
                                                         case Enterprise => EnterpriseCiscoRouter)
  {
  }
}
