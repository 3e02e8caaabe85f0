/** The enum-based router of State2.kt: each `IRouterState2` constant
    carries its own `connect`, `disconnect` and `reboot` lambdas, and
    `IRouterContext2` calls the ones of its current state.

    Unlike the class-based router, a reboot here really comes back: the
    CONNECTED lambda sets REBOOTING, suspends, then sets CONNECTED again. The
    suspension is modelled as the two writes it separates. */
module RouterEnum {
  import opened Platform
  import opened Transition
  import RouterState

  datatype RouterState2 = CONNECTED | DISCONNECTED | REBOOTING

  datatype RouterAction2 = Connect | Disconnect | Reboot

  type RouterEffect2 = Effect<RouterState2, Line>

  /** The state a new `IRouterContext2` starts in. */
  const Fresh: RouterState2 := DISCONNECTED

  /** The lambda of the current enum constant for `a`. */
  function Handle(s: RouterState2, a: RouterAction2): RouterEffect2 {
    match s
    case CONNECTED =>
      (match a
       case Connect => Print(Out("Already connected."))
       case Disconnect => Effect([DISCONNECTED], [Out("Disconnected.")])
       case Reboot => Effect([REBOOTING, CONNECTED], [Out("Rebooting")]))
    case DISCONNECTED =>
      (match a
       case Connect => Effect([CONNECTED], [Out("Connecting...")])
       case Disconnect => Print(Out("Already disconnected."))
       case Reboot => Print(Out("Cannot reboot while disconnected.")))
    case REBOOTING =>
      (match a
       case Connect => Print(Out("cannot connect while rebooting"))
       case Disconnect => Print(Out("Cannot disconnect while rebooting."))
       case Reboot => Print(Out("already rebooting")))
  }

  /** The state once a context call has completed. */
  function Step(s: RouterState2, a: RouterAction2): (t: RouterState2)
    ensures t == s || t in Handle(s, a).writes
  {
    After(s, Handle(s, a))
  }

  /** The state after a sequence of completed context calls. */
  function Run(s: RouterState2, acts: seq<RouterAction2>): RouterState2
    decreases |acts|
  {
    if |acts| == 0 then s else Run(Step(s, acts[0]), acts[1..])
  }

  /** DISCONNECTED: only `connect` moves, to CONNECTED. */
  lemma DisconnectedTransitions(a: RouterAction2)
    ensures Step(DISCONNECTED, a) == (if a == Connect then CONNECTED else DISCONNECTED)
  {
  }

  /** CONNECTED: `disconnect` goes to DISCONNECTED; `connect` stays; `reboot`
      passes through REBOOTING and finishes back in CONNECTED. */
  lemma ConnectedTransitions(a: RouterAction2)
    ensures Step(CONNECTED, a) == (if a == Disconnect then DISCONNECTED else CONNECTED)
    ensures Handle(CONNECTED, Reboot).writes == [REBOOTING, CONNECTED]
  {
  }

  /** REBOOTING ignores every call. */
  lemma RebootingAbsorbs(a: RouterAction2)
    ensures Step(REBOOTING, a) == REBOOTING
    ensures Handle(REBOOTING, a).writes == []
  {
  }

  /** Between completed calls a router that started fresh is never seen
      rebooting: REBOOTING only exists while a reboot is suspended. */
  lemma {:induction false} NeverRestsInRebooting(s: RouterState2, acts: seq<RouterAction2>)
    requires s != REBOOTING
    ensures Run(s, acts) != REBOOTING
    decreases |acts|
  {
    if |acts| > 0 {
      NeverRestsInRebooting(Step(s, acts[0]), acts[1..]);
    }
  }

  lemma FreshNeverRestsInRebooting(acts: seq<RouterAction2>)
    ensures Run(Fresh, acts) == CONNECTED || Run(Fresh, acts) == DISCONNECTED
  {
    NeverRestsInRebooting(Fresh, acts);
  }

  /** The same three calls from fresh routers: the class-based router ends
      stuck in Rebooting, the enum-based one is connected again. */
  lemma RebootDiffersFromClassRouter()
    ensures RouterState.Run(RouterState.Fresh, [RouterState.Connect, RouterState.Reboot]) == RouterState.Rebooting
    ensures Run(Fresh, [Connect, Reboot]) == CONNECTED
  {
    var acts := [RouterState.Connect, RouterState.Reboot];
    assert RouterState.Run(RouterState.Fresh, acts) == RouterState.Run(RouterState.Connected, acts[1..]);
    var acts2 := [Connect, Reboot];
    assert Run(Fresh, acts2) == Run(CONNECTED, acts2[1..]);
  }
}
