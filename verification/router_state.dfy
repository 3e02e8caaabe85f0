/** The class-based router of State.kt: three state classes behind
    `IRouterState` and an `IRouterContext` that forwards each call to its
    current state object.

    RebootingState resets the context to Disconnected in its `init` block,
    but `ConnectedState.reboot` then stores the new RebootingState object,
    so a reboot leaves the router in Rebooting for good. */
module RouterState {
  import opened Platform
  import opened Transition

  datatype RouterState = Disconnected | Connected | Rebooting

  datatype RouterAction = Connect | Disconnect | Configure | Reboot

  type RouterEffect = Effect<RouterState, Line>

  /** The state a new `IRouterContext` starts in. */
  const Fresh: RouterState := Disconnected

  /** The `init` block of RebootingState. Its first line reports the clock
      and the thread name, which the model does not track. */
  const RebootingInit: RouterEffect :=
    Effect([Disconnected], [ThreadReport, Out("Rebooting in progress..."),
                            Out("Reboot complete. Router is now disconnected.")])

  /** The method of the current state object that handles `a`; the context
      adds nothing of its own. */
  function Handle(s: RouterState, a: RouterAction): RouterEffect {
    match s
    case Connected =>
      (match a
       case Connect => Print(Out("Already connected."))
       case Disconnect => Effect([Disconnected], [Out("Disconnected.")])
       case Configure => Print(Out("Configuring settings..."))
       case Reboot => Assign(RebootingInit, Rebooting, [Out("Rebooting...")]))
    case Disconnected =>
      (match a
       case Connect => Effect([Connected], [Out("Connecting...")])
       case Disconnect => Print(Out("Already disconnected."))
       case Configure => Print(Out("Cannot configure while disconnected."))
       case Reboot => Print(Out("Cannot reboot while disconnected.")))
    case Rebooting =>
      (match a
       case Connect => Print(Timed("Cannot connect while rebooting."))
       case Disconnect => Print(Out("Cannot disconnect while rebooting."))
       case Configure => Print(Out("Cannot configure while rebooting."))
       case Reboot => Print(Out("Already rebooting.")))
  }

  /** The state after one context call. */
  function Step(s: RouterState, a: RouterAction): (t: RouterState)
    ensures t == s || t in Handle(s, a).writes
  {
    After(s, Handle(s, a))
  }

  /** The state after a sequence of context calls. */
  function Run(s: RouterState, acts: seq<RouterAction>): RouterState
    decreases |acts|
  {
    if |acts| == 0 then s else Run(Step(s, acts[0]), acts[1..])
  }


  /** Disconnected: only `connect` moves, to Connected. */
  lemma DisconnectedTransitions(a: RouterAction)
    ensures Step(Disconnected, a) == (if a == Connect then Connected else Disconnected)
  {
  }

  /** Connected: `disconnect` goes to Disconnected and `reboot` to
      Rebooting, after the reboot sequence's own write of Disconnected has
      been overwritten; `connect` and `configure` stay. */
  lemma ConnectedTransitions(a: RouterAction)
    ensures Step(Connected, a) ==
            (match a
             case Disconnect => Disconnected
             case Reboot => Rebooting
             case _ => Connected)
    ensures Handle(Connected, Reboot).writes == [Disconnected, Rebooting]
  {
  }

  /** `configure` never changes the state, and only prints. */
  lemma ConfigureKeepsState(s: RouterState)
    ensures Step(s, Configure) == s
    ensures Handle(s, Configure).writes == []
  {
  }

  /** Rebooting ignores every call. */
  lemma RebootingAbsorbs(a: RouterAction)
    ensures Step(Rebooting, a) == Rebooting
    ensures Handle(Rebooting, a).writes == []
  {
  }

  /** Once rebooting, the router never leaves Rebooting, whatever it is asked. */
  lemma {:induction false} RebootIsPermanent(acts: seq<RouterAction>)
    ensures Run(Rebooting, acts) == Rebooting
    decreases |acts|
  {
    if |acts| > 0 {
      RebootingAbsorbs(acts[0]);
      RebootIsPermanent(acts[1..]);
    }
  }

  /** A router that has ever been asked to reboot while connected is
      rebooting from then on. */
  lemma {:induction false} RebootFromConnectedSticks(pre: seq<RouterAction>, post: seq<RouterAction>)
    requires Run(Fresh, pre) == Connected
    ensures Run(Fresh, pre + [Reboot] + post) == Rebooting
  {
    RunAppend(Fresh, pre, [Reboot] + post);
    assert pre + [Reboot] + post == pre + ([Reboot] + post);
    assert Run(Connected, [Reboot] + post) == Run(Rebooting, post) by {
      assert ([Reboot] + post)[1..] == post;
    }
    RebootIsPermanent(post);
  }

  lemma {:induction false} RunAppend(s: RouterState, xs: seq<RouterAction>, ys: seq<RouterAction>)
    ensures Run(s, xs + ys) == Run(Run(s, xs), ys)
    decreases |xs|
  {
    if |xs| == 0 {
      assert xs + ys == ys;
    } else {
      assert (xs + ys)[0] == xs[0];
      assert (xs + ys)[1..] == xs[1..] + ys;
      RunAppend(Step(s, xs[0]), xs[1..], ys);
    }
  }

  /** The router calls of the demo driver, in order. */
  const DemoActions: seq<RouterAction> := [Configure, Connect, Configure, Reboot, Connect]

  /** The demo driver ends with the router stuck in Rebooting, and its last
      call is refused with the clock-stamped "Cannot connect while rebooting.". */
  lemma DemoEndsRebooting()
    ensures Run(Fresh, DemoActions) == Rebooting
    ensures Handle(Rebooting, Connect).lines == [Timed("Cannot connect while rebooting.")]
  {
    var acts := DemoActions;
    assert Run(Fresh, acts) == Run(Disconnected, acts[1..]);
    var t1 := acts[1..];
    assert Run(Disconnected, t1) == Run(Connected, t1[1..]);
    var t2 := t1[1..];
    assert Run(Connected, t2) == Run(Connected, t2[1..]);
    var t3 := t2[1..];
    assert Run(Connected, t3) == Run(Rebooting, t3[1..]);
    RebootIsPermanent(t3[1..]);
  }
}
