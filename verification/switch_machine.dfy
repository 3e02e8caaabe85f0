/** The network switch of SwitchStateMAchine.kt: five state classes behind
    `ISwitchState` and a `SwitchContext` that logs each action and then
    delegates it to its current state object.

    The Booting and Connecting classes set the context's state to their
    successor inside their own `init` block, but the caller then stores the
    freshly built object into `context.state`, overwriting that successor.
    The model keeps this: once entered, Booting and Connecting are never
    left. */
module SwitchMachine {
  import opened Platform
  import opened Transition

  datatype SwitchState = PoweredOff | Booting | Disconnected | Connecting | Connected

  datatype SwitchAction =
    | PowerOn
    | PowerOff
    | Connect
    | Disconnect
    | CheckStatus
    | ConfigurePort(port: Int32, vlan: Int32)

  /** One console line of the switch. `Logged` and `ActionLogged` lines go
      through `SwitchContext.log`, which prefixes the time of day; the model
      drops that clock reading. */
  datatype SwitchLine =
    | ActionLogged(action: SwitchAction)       // log("Action: …") before each delegation
    | Logged(message: string)                  // log(message) by a state object
    | Printed(message: string)                 // println(message) by a state object
    | PortConfigured(port: Int32, vlan: Int32) // println("Configuring port … with VLAN ID …")

  type SwitchEffect = Effect<SwitchState, SwitchLine>

  /** The state a new `SwitchContext` starts in. */
  const Fresh: SwitchState := PoweredOff

  /** The `init` block of BootingStateS: two log lines around the write of
      the successor state. */
  const BootingInit: SwitchEffect :=
    Effect([Disconnected], [Logged("Booting..."), Logged("Boot complete. Switch is now disconnected.")])

  /** The `init` block of ConnectingStateS. */
  const ConnectingInit: SwitchEffect :=
    Effect([Connected], [Logged("Establishing network connections..."),
                         Logged("Connection established. Switch is now connected.")])

  /** The method of the current state object that handles `a`. State
      objects never write an "Action: …" line; only the context does. */
  function Handle(s: SwitchState, a: SwitchAction): (e: SwitchEffect)
    ensures forall l :: l in e.lines ==> !l.ActionLogged?
  {
    match s
    case PoweredOff =>
      (match a
       case PowerOn => Assign(BootingInit, Booting, [Logged("Transitioning to Booting state.")])
       case PowerOff => Print(Printed("Already powered off."))
       case Connect => Print(Printed("Cannot connect while powered off."))
       case Disconnect => Print(Printed("Cannot disconnect while powered off."))
       case CheckStatus => Print(Printed("Switch is powered off."))
       case ConfigurePort(_, _) => Print(Printed("Cannot configure port while powered off.")))
    case Booting =>
      (match a
       case PowerOn => Print(Printed("Already powering on."))
       case PowerOff => Print(Printed("Cannot power off while booting."))
       case Connect => Print(Printed("Cannot connect while booting."))
       case Disconnect => Print(Printed("Cannot disconnect while booting."))
       case CheckStatus => Print(Printed("Switch is booting up."))
       case ConfigurePort(_, _) => Print(Printed("Cannot configure port while booting.")))
    case Disconnected =>
      (match a
       case PowerOn => Print(Printed("Already powered on."))
       case PowerOff => Effect([PoweredOff], [Logged("Transitioning to Power Off state.")])
       case Connect => Assign(ConnectingInit, Connecting, [Logged("Transitioning to Connecting state.")])
       case Disconnect => Print(Printed("Already disconnected."))
       case CheckStatus => Print(Printed("Switch is disconnected."))
       case ConfigurePort(_, _) => Print(Printed("Cannot configure port while disconnected.")))
    case Connecting =>
      (match a
       case PowerOn => Print(Printed("Already powered on."))
       case PowerOff => Print(Printed("Cannot power off while connecting."))
       case Connect => Print(Printed("Already connecting."))
       case Disconnect => Print(Printed("Cannot disconnect while connecting."))
       case CheckStatus => Print(Printed("Switch is connecting..."))
       case ConfigurePort(_, _) => Print(Printed("Cannot configure port while connecting.")))
    case Connected =>
      (match a
       case PowerOn => Print(Printed("Already powered on."))
       case PowerOff => Effect([PoweredOff], [Logged("Transitioning to Power Off state.")])
       case Connect => Print(Printed("Already connected."))
       case Disconnect => Effect([Disconnected], [Logged("Transitioning to Disconnected state.")])
       case CheckStatus => Print(Printed("Switch is connected."))
       case ConfigurePort(port, vlan) => Print(PortConfigured(port, vlan)))
  }

  /** One call of a `SwitchContext` action method: the "Action: …" log
      line, then whatever the current state object does. */
  function Perform(s: SwitchState, a: SwitchAction): (r: (SwitchState, seq<SwitchLine>))
    ensures |r.1| >= 1 && r.1[0] == ActionLogged(a)
    ensures forall i :: 0 < i < |r.1| ==> !r.1[i].ActionLogged?
    ensures r.0 == s || r.0 in Handle(s, a).writes
  {
    var e := Handle(s, a);
    var lines := [ActionLogged(a)] + e.lines;
    assert forall i :: 0 < i < |lines| ==> lines[i] == e.lines[i - 1] && lines[i] in e.lines;
    (After(s, e), lines)
  }

  /** The state after a sequence of context calls. */
  function Run(s: SwitchState, acts: seq<SwitchAction>): SwitchState
    decreases |acts|
  {
    if |acts| == 0 then s else Run(Perform(s, acts[0]).0, acts[1..])
  }

  /** Everything a sequence of context calls writes to the console. */
  function RunLines(s: SwitchState, acts: seq<SwitchAction>): seq<SwitchLine>
    decreases |acts|
  {
    if |acts| == 0 then [] else Perform(s, acts[0]).1 + RunLines(Perform(s, acts[0]).0, acts[1..])
  }

  /** The actions named by the "Action: …" lines of `lines`, in order. */
  function LoggedActions(lines: seq<SwitchLine>): seq<SwitchAction> {
    if |lines| == 0 then []
    else (if lines[0].ActionLogged? then [lines[0].action] else []) + LoggedActions(lines[1..])
  }

  lemma {:induction false} LoggedActionsAppend(a: seq<SwitchLine>, b: seq<SwitchLine>)
    ensures LoggedActions(a + b) == LoggedActions(a) + LoggedActions(b)
    decreases |a|
  {
    if |a| == 0 {
      assert a + b == b;
    } else {
      var first := if a[0].ActionLogged? then [a[0].action] else [];
      assert (a + b)[0] == a[0];
      assert (a + b)[1..] == a[1..] + b;
      LoggedActionsAppend(a[1..], b);
      calc {
        LoggedActions(a + b);
        first + LoggedActions(a[1..] + b);
        first + (LoggedActions(a[1..]) + LoggedActions(b));
        (first + LoggedActions(a[1..])) + LoggedActions(b);
        LoggedActions(a) + LoggedActions(b);
      }
    }
  }

  lemma {:induction false} NoLoggedActions(lines: seq<SwitchLine>)
    requires forall i :: 0 <= i < |lines| ==> !lines[i].ActionLogged?
    ensures LoggedActions(lines) == []
    decreases |lines|
  {
    if |lines| > 0 {
      NoLoggedActions(lines[1..]);
    }
  }

  /** The "Action: …" lines of a run name exactly the actions requested, in
      order: each call logs one, before anything the state object prints. */
  lemma {:induction false} EveryCallLogsItsAction(s: SwitchState, acts: seq<SwitchAction>)
    ensures LoggedActions(RunLines(s, acts)) == acts
    ensures |acts| > 0 ==> RunLines(s, acts)[0] == ActionLogged(acts[0])
    decreases |acts|
  {
    if |acts| > 0 {
      var (t, head) := Perform(s, acts[0]);
      EveryCallLogsItsAction(t, acts[1..]);
      assert head == [head[0]] + head[1..];
      NoLoggedActions(head[1..]);
      LoggedActionsAppend([head[0]], head[1..]);
      LoggedActionsAppend(head, RunLines(t, acts[1..]));
      assert acts == [acts[0]] + acts[1..];
    }
  }

  /** The states a fresh switch can be in: the first power-on strands it in
      Booting. */
  predicate FreshReachable(s: SwitchState) {
    s == PoweredOff || s == Booting
  }

  lemma StepStaysFreshReachable(s: SwitchState, a: SwitchAction)
    requires FreshReachable(s)
    ensures FreshReachable(Perform(s, a).0)
  {
  }

  /** From a fresh context, no sequence of actions ever leaves PoweredOff
      and Booting. */
  lemma {:induction false} OnlyPoweredOffOrBooting(s: SwitchState, acts: seq<SwitchAction>)
    requires FreshReachable(s)
    ensures FreshReachable(Run(s, acts))
    decreases |acts|
  {
    if |acts| > 0 {
      StepStaysFreshReachable(s, acts[0]);
      OnlyPoweredOffOrBooting(Perform(s, acts[0]).0, acts[1..]);
    }
  }

  lemma FreshOnlyReachesPoweredOffOrBooting(acts: seq<SwitchAction>)
    ensures Run(Fresh, acts) == PoweredOff || Run(Fresh, acts) == Booting
  {
    OnlyPoweredOffOrBooting(Fresh, acts);
  }

  lemma StepNeverConfigures(s: SwitchState, a: SwitchAction)
    requires FreshReachable(s)
    ensures forall i :: 0 <= i < |Perform(s, a).1| ==> !Perform(s, a).1[i].PortConfigured?
  {
  }

  /** Starting fresh, the switch never configures a port, whatever it is
      asked to do. */
  lemma {:induction false} NeverConfiguresPort(s: SwitchState, acts: seq<SwitchAction>)
    requires FreshReachable(s)
    ensures forall i :: 0 <= i < |RunLines(s, acts)| ==> !RunLines(s, acts)[i].PortConfigured?
    decreases |acts|
  {
    if |acts| > 0 {
      var (t, head) := Perform(s, acts[0]);
      StepStaysFreshReachable(s, acts[0]);
      NeverConfiguresPort(t, acts[1..]);
      StepNeverConfigures(s, acts[0]);
      var all := head + RunLines(t, acts[1..]);
      assert RunLines(s, acts) == all;
      forall i | 0 <= i < |all| ensures !all[i].PortConfigured? {
        if i >= |head| { assert all[i] == RunLines(t, acts[1..])[i - |head|]; }
      }
    }
  }

  /** In PoweredOff only `powerOn` moves the switch, and it moves it to
      Booting: the Disconnected written by the boot sequence is overwritten. */
  lemma PoweredOffTransitions(a: SwitchAction)
    ensures Perform(PoweredOff, a).0 == (if a == PowerOn then Booting else PoweredOff)
    ensures Handle(PoweredOff, PowerOn).writes == [Disconnected, Booting]
  {
  }

  /** Booting and Connecting are absorbing: no action changes them. */
  lemma TransientStatesAbsorb(s: SwitchState, a: SwitchAction)
    requires s == Booting || s == Connecting
    ensures Perform(s, a).0 == s
    ensures Handle(s, a).writes == []
  {
  }

  /** In Disconnected, `powerOff` powers off and `connect` gets stuck in
      Connecting (its init's Connected is overwritten); nothing else moves. */
  lemma DisconnectedTransitions(a: SwitchAction)
    ensures Perform(Disconnected, a).0 ==
            (match a
             case PowerOff => PoweredOff
             case Connect => Connecting
             case _ => Disconnected)
    ensures Handle(Disconnected, Connect).writes == [Connected, Connecting]
  {
  }

  /** In Connected, `powerOff` powers off and `disconnect` disconnects;
      configuring a port prints and stays. */
  lemma ConnectedTransitions(a: SwitchAction)
    ensures Perform(Connected, a).0 ==
            (match a
             case PowerOff => PoweredOff
             case Disconnect => Disconnected
             case _ => Connected)
    ensures a.ConfigurePort? ==> Handle(Connected, a).lines == [PortConfigured(a.port, a.vlan)]
  {
  }

  /** The switch calls of the demo driver, in order. */
  const DemoActions: seq<SwitchAction> :=
    [Connect, PowerOn, Connect, Disconnect, PowerOff, Connect, CheckStatus, ConfigurePort(1, 10), PowerOff]

  /** The switch part of the demo driver: after power-on the switch stays
      in Booting, so the later `checkStatus` finds it booting (see
      `BootingReportsBooting`) rather than connected. */
  lemma DemoEndsBooting()
    ensures Run(Fresh, DemoActions) == Booting
  {
    PowerOnBoots(DemoActions, 1);
  }

  /** A status check while booting logs the action and prints "Switch is
      booting up.". */
  lemma BootingReportsBooting()
    ensures Perform(Booting, CheckStatus).1 == [ActionLogged(CheckStatus), Printed("Switch is booting up.")]
  {
    assert Handle(Booting, CheckStatus).lines == [Printed("Switch is booting up.")];
  }

  /** A powered-off switch boots at its first `powerOn` and never leaves
      Booting again. */
  lemma {:induction false} PowerOnBoots(acts: seq<SwitchAction>, k: nat)
    requires k < |acts| && acts[k] == PowerOn
    requires forall j :: 0 <= j < k ==> acts[j] != PowerOn
    ensures Run(PoweredOff, acts) == Booting
    decreases k
  {
    PoweredOffTransitions(acts[0]);
    if k == 0 {
      OnlyBooting(acts[1..]);
    } else {
      PowerOnBoots(acts[1..], k - 1);
    }
  }

  lemma {:induction false} OnlyBooting(acts: seq<SwitchAction>)
    ensures Run(Booting, acts) == Booting
    decreases |acts|
  {
    if |acts| > 0 {
      TransientStatesAbsorb(Booting, acts[0]);
      OnlyBooting(acts[1..]);
    }
  }
}
