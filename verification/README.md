# Network design-pattern demos in Dafny

This project models the decision-making parts of a Kotlin repository of
design-pattern demos built around network equipment (routers, switches,
CPE boxes). Each demo becomes one Dafny module of immutable datatypes and
pure step functions. A step function returns the new state together with
what the call did: the state writes it made, the receiver calls it issued,
the deliveries it caused or the lines it printed.

| module | file | models |
|---|---|---|
| `Platform` | platform.dfy | `Option`, 32-bit `Int`, printed lines, decimal rendering |
| `Transition` | transition.dfy | what one State-pattern call writes to its context's `state` property |
| `SwitchMachine` | switch_machine.dfy | the five-state network switch and its logging `SwitchContext` |
| `RouterState` | router_state.dfy | the class-based router states and `IRouterContext` |
| `RouterEnum` | router_enum.dfy | the enum-based router states and `IRouterContext2` |
| `RouterMemento` | memento.dfy | `EasyBoxGPRouter`, `RouterStateMemento`, the `RouterStateManager` stack |
| `CommandHistory` | command.dfy | the two router commands, the stub receiver and `NetworkAdminConsole` |
| `SupportChain` | support_chain.dfy | the three support levels of the chain of responsibility |
| `NetworkMediator` | mediator.dfy | `NetworkManager`, `Router666` and `Computer` |
| `NetworkObserver` | observer.dfy | `NetworkMonitor`, `NetworkEvent` and `AdminDashboard` |
| `PacketFlyweight` | flyweight.dfy | `NetworkPacketFactory` and its flyweights |
| `RouterDecorator` | decorator.dfy | the basic router and its four feature decorations |
| `CpeBuilder` | cpe_builder.dfy | `BasicCPEBuilder` and `CPEConfigurationDirector` |
| `RouterFactory` | router_factory.dfy | `FactoryRouterCreator` and the three concrete factories |

Several behaviours are modelled as the code does them, not as its comments
or the demo driver's expected-output comments say:

- A State-pattern call such as `context.state = BootingStateS(context)`
  runs the new object's `init` block first. That block writes the successor
  state, and the outer assignment then overwrites it. So the switch's
  Booting and Connecting states, and the class-based router's Rebooting
  state, are never left. `Transition.Effect` records both writes, and the
  lemmas state the final one.
- The demo driver's switch comments expect "Switch is connected." and a
  configured port. From a fresh switch only PowerOff and Booting are
  reachable, so no port is ever configured.
- The demo comment on the chain of responsibility says "complex" escalates
  to level 3. Level 2 handles it and the request stops there.
- `withParentalControl` appends ", VPN support", exactly like `withVPN`.
- The flyweight cache key joins three fields with "-". Two different
  triples can therefore share a key, and the second caller gets the first
  caller's flyweight.

Object identity matters for mediator devices, observers and flyweights, so
these carry explicit ids: `DeviceId`, `ObserverId`, and `Packet.id` (the
number of flyweights made before it).

## Model

| member | source | states |
|---|---|---|
| Transition.After | behavpetterns/src/main/kotlin/State.kt:74-80 | after a call, the context holds the last state the call assigned, or its old state if the call assigned none |
| Transition.Assign | behavpetterns/src/main/kotlin/State.kt:22-25 | storing a new state object whose `init` block already wrote a state still ends with the stored object as the last write |
| SwitchMachine.Perform | behavpetterns/src/main/kotlin/SwitchStateMAchine.kt:169-197 | a context call first logs its own "Action" line and logs no other; the resulting state is the old one or one the call wrote |
| SwitchMachine.EveryCallLogsItsAction | behavpetterns/src/main/kotlin/SwitchStateMAchine.kt:169-197 | over any run, the "Action" lines name exactly the requested actions, in order |
| SwitchMachine.PoweredOffTransitions | behavpetterns/src/main/kotlin/SwitchStateMAchine.kt:13-47 | in PowerOff only `powerOn` changes the state; it writes Disconnected then Booting, so it ends in Booting |
| SwitchMachine.TransientStatesAbsorb | behavpetterns/src/main/kotlin/SwitchStateMAchine.kt:40-134 | no action changes the state in Booting or Connecting, and none of them writes a state |
| SwitchMachine.DisconnectedTransitions | behavpetterns/src/main/kotlin/SwitchStateMAchine.kt:74-107 | in Disconnected, `powerOff` goes to PowerOff and `connect` ends stuck in Connecting; every other action stays |
| SwitchMachine.ConnectedTransitions | behavpetterns/src/main/kotlin/SwitchStateMAchine.kt:136-164 | in Connected, `powerOff` goes to PowerOff and `disconnect` to Disconnected; configuring a port prints its line and stays |
| SwitchMachine.OnlyPoweredOffOrBooting | behavpetterns/src/main/kotlin/SwitchStateMAchine.kt:13-72 | from PowerOff or Booting, every run ends in PowerOff or Booting |
| SwitchMachine.FreshOnlyReachesPoweredOffOrBooting | behavpetterns/src/main/kotlin/SwitchStateMAchine.kt:166-167 | a fresh switch only ever reaches PowerOff or Booting |
| SwitchMachine.NeverConfiguresPort | behavpetterns/src/main/kotlin/SwitchStateMAchine.kt:13-72 | no run from PowerOff or Booting ever prints a port configuration |
| SwitchMachine.OnlyBooting | behavpetterns/src/main/kotlin/SwitchStateMAchine.kt:40-72 | once Booting, the switch stays Booting under every run |
| SwitchMachine.Handle | behavpetterns/src/main/kotlin/SwitchStateMAchine.kt:13-164 | no state object ever writes an "Action" line; only the context logs actions |
| SwitchMachine.PowerOnBoots | behavpetterns/src/main/kotlin/SwitchStateMAchine.kt:13-72 | a powered-off switch ends in Booting once any run contains a `powerOn` |
| SwitchMachine.DemoEndsBooting | src/main/kotlin/Main.kt:196-208 | the demo's switch calls leave it Booting rather than connected |
| SwitchMachine.BootingReportsBooting | behavpetterns/src/main/kotlin/SwitchStateMAchine.kt:64-66 | a status check while booting logs the action and prints "Switch is booting up." |
| RouterState.Step | behavpetterns/src/main/kotlin/State.kt:74-80 | the state after a context call is the old one or one the call wrote |
| RouterState.DisconnectedTransitions | behavpetterns/src/main/kotlin/State.kt:28-45 | in Disconnected only `connect` moves, to Connected |
| RouterState.ConnectedTransitions | behavpetterns/src/main/kotlin/State.kt:8-25 | in Connected, `disconnect` goes to Disconnected and `reboot` writes Disconnected then Rebooting; the rest stay |
| RouterState.ConfigureKeepsState | behavpetterns/src/main/kotlin/State.kt:18-58 | `configure` writes no state in any state |
| RouterState.RebootingAbsorbs | behavpetterns/src/main/kotlin/State.kt:47-62 | every call in Rebooting only prints |
| RouterState.RebootIsPermanent | behavpetterns/src/main/kotlin/State.kt:47-71 | a rebooting router stays rebooting under every run |
| RouterState.RebootFromConnectedSticks | behavpetterns/src/main/kotlin/State.kt:22-25 | after a reboot while connected, the router is rebooting whatever follows |
| RouterState.DemoEndsRebooting | src/main/kotlin/Main.kt:186-193 | the demo's calls leave the router rebooting, and its last `connect` prints the clock-stamped refusal |
| RouterEnum.Step | behavpetterns/src/main/kotlin/State2.kt:54-58 | the state after a context call is the old one or one the lambda wrote |
| RouterEnum.DisconnectedTransitions | behavpetterns/src/main/kotlin/State2.kt:25-37 | in DISCONNECTED only `connect` moves, to CONNECTED |
| RouterEnum.ConnectedTransitions | behavpetterns/src/main/kotlin/State2.kt:8-23 | in CONNECTED `disconnect` goes to DISCONNECTED; `reboot` writes REBOOTING then CONNECTED and ends connected |
| RouterEnum.RebootingAbsorbs | behavpetterns/src/main/kotlin/State2.kt:38-51 | every call in REBOOTING only prints |
| RouterEnum.NeverRestsInRebooting | behavpetterns/src/main/kotlin/State2.kt:8-51 | from any state but REBOOTING, no sequence of completed calls ends in REBOOTING |
| RouterEnum.FreshNeverRestsInRebooting | behavpetterns/src/main/kotlin/State2.kt:54-55 | a fresh enum router is always CONNECTED or DISCONNECTED between calls |
| RouterEnum.RebootDiffersFromClassRouter | behavpetterns/src/main/kotlin/State2.kt:16-23 | connect then reboot leaves the enum router connected and the class-based router rebooting |
| RouterMemento.EnableWifi | behavpetterns/src/main/kotlin/Memento.kt:29-31 | Wi-Fi is on afterwards; password and settings are untouched |
| RouterMemento.DisableWifi | behavpetterns/src/main/kotlin/Memento.kt:33-35 | Wi-Fi is off afterwards; password and settings are untouched |
| RouterMemento.SetPassword | behavpetterns/src/main/kotlin/Memento.kt:37-39 | the password is the new one; Wi-Fi and settings are untouched |
| RouterMemento.SetSetting | behavpetterns/src/main/kotlin/Memento.kt:41-43 | the key maps to the value, no other key changes or appears, Wi-Fi and password are untouched |
| RouterMemento.RestoreAfterCreate | behavpetterns/src/main/kotlin/Memento.kt:45-54 | restoring a router's own memento gives the router back |
| RouterMemento.CreateAfterRestore | behavpetterns/src/main/kotlin/Memento.kt:45-54 | a restore depends only on the memento, and a memento taken right after it equals the memento restored |
| RouterMemento.RestoreDropsNewKeys | behavpetterns/src/main/kotlin/Memento.kt:49-54 | a settings key added after the snapshot is gone after the restore |
| RouterMemento.SaveMemento | behavpetterns/src/main/kotlin/Memento.kt:65-67 | saving grows the stack by one |
| RouterMemento.Undo | behavpetterns/src/main/kotlin/Memento.kt:69-74 | undo returns null exactly when the stack is empty, and otherwise pops and returns the top |
| RouterMemento.UndoAfterSave | behavpetterns/src/main/kotlin/Memento.kt:65-74 | an undo right after a save returns the saved memento and the stack as it was |
| RouterMemento.UndosReturnSavesNewestFirst | behavpetterns/src/main/kotlin/Memento.kt:62-74 | n saves then n undos return the saved mementos newest first and restore the stack |
| RouterMemento.UndoOnEmpty | behavpetterns/src/main/kotlin/Memento.kt:69-74 | undo on an empty caretaker returns null and leaves it empty |
| RouterMemento.SaveEditUndoRestore | behavpetterns/src/main/kotlin/Memento.kt:45-74 | save, any edits, undo and restore: the router and the caretaker are back as they were |
| RouterMemento.DemoRestoresSavedState | src/main/kotlin/Main.kt:257-275 | the demo restores Wi-Fi on, "securePassword" and firewall enabled |
| CommandHistory.Execute | behavpetterns/src/main/kotlin/Command.kt:58-77 | executing leaves the command executed and its last receiver call is the command's own action |
| CommandHistory.Undo | behavpetterns/src/main/kotlin/Command.kt:64-82 | undoing Wi-Fi always calls `disableWifi`; a password undo calls `setPassword(old)` exactly when an old password was recorded |
| CommandHistory.ExecuteCommand | behavpetterns/src/main/kotlin/Command.kt:109-112 | the history grows by exactly the executed command; the receiver sees its execute calls |
| CommandHistory.UndoLastCommand | behavpetterns/src/main/kotlin/Command.kt:114-121 | with history, the last command is removed and undone; without, nothing is called and only "No commands to undo" is printed |
| CommandHistory.ConsoleKeepsHistoryExecuted | behavpetterns/src/main/kotlin/Command.kt:109-121 | the console only holds executed commands, so each undo makes exactly one receiver call |
| CommandHistory.ExecuteAllAppends | behavpetterns/src/main/kotlin/Command.kt:109-112 | executing a list keeps the earlier history and appends the executed commands, one per command, in order |
| CommandHistory.UndoTimesPops | behavpetterns/src/main/kotlin/Command.kt:114-121 | k undos drop the last k commands, or empty the history when there are fewer |
| CommandHistory.ExecutesThenUndosRestoreHistory | behavpetterns/src/main/kotlin/Command.kt:109-121 | n executes then n undos restore the history; one more undo on a console that started empty leaves it empty |
| CommandHistory.DemoReceiverTrace | src/main/kotlin/Main.kt:211-218 | the demo's receiver sees enable, get, set(p), set("old_password"), disable, and the console ends empty |
| SupportChain.Levels | behavpetterns/src/main/kotlin/ChainOfResp.kt:35-37 | a chain is a finite list of levels starting at its first handler |
| SupportChain.HandleRequest | behavpetterns/src/main/kotlin/ChainOfResp.kt:39-67 | a handled request went to a level of the chain whose keyword is its complexity; a dropped one matches no level |
| SupportChain.Transcript | behavpetterns/src/main/kotlin/ChainOfResp.kt:39-67 | a request produces at most one handling line |
| SupportChain.FirstMatch | behavpetterns/src/main/kotlin/ChainOfResp.kt:39-67 | reference reading: the first position in a level list whose keyword matches, or none |
| SupportChain.HandledByFirstMatch | behavpetterns/src/main/kotlin/ChainOfResp.kt:39-67 | the chain handles a request at its first matching level and is silent exactly when none matches |
| SupportChain.DemoRouting | src/main/kotlin/Main.kt:221-231 | in the chain 1, 2, 3: "basic", "complex" and "highest" reach levels 1, 2 and 3; anything else is dropped |
| NetworkMediator.Lookup | behavpetterns/src/main/kotlin/Mediator.kt:94-95 | a found device is registered under that name; a missing name has no entry |
| NetworkMediator.Put | behavpetterns/src/main/kotlin/Mediator.kt:84-85 | the name now maps to the device and every other name maps as before |
| NetworkMediator.Remove | behavpetterns/src/main/kotlin/Mediator.kt:89-90 | the name maps to nothing and every other name maps as before |
| NetworkMediator.Broadcast | behavpetterns/src/main/kotlin/Mediator.kt:62-68 | every delivery carries the message to a registered device other than the sender |
| NetworkMediator.BroadcastExactlyOnce | behavpetterns/src/main/kotlin/Mediator.kt:62-68 | each registered device except the sender receives the message exactly once; no other device receives it |
| NetworkMediator.ValidIdsDistinct | behavpetterns/src/main/kotlin/Mediator.kt:60-92 | in a consistent network no device is registered under two names, so the exactly-once guarantees of broadcasts apply |
| NetworkMediator.RegisterDevice | behavpetterns/src/main/kotlin/Mediator.kt:84-87 | the device is registered under its name and other names are unchanged; every delivery is "Device <name> has joined the network." to a registered device other than the newcomer, and with no device under two names each such device gets it exactly once |
| NetworkMediator.UnregisterDevice | behavpetterns/src/main/kotlin/Mediator.kt:89-92 | nothing is registered under the device's name afterwards and other names are unchanged; every delivery is "Device <name> has left the network." to a device still registered, other than the leaver, and with no device under two names each such device gets it exactly once |
| NetworkMediator.RegisterKeepsValid | behavpetterns/src/main/kotlin/Mediator.kt:84-87 | registering keeps one entry per name, each pointing at a device of that name |
| NetworkMediator.UnregisterKeepsValid | behavpetterns/src/main/kotlin/Mediator.kt:89-92 | unregistering keeps the registry consistent |
| NetworkMediator.RemoveAfterPut | behavpetterns/src/main/kotlin/Mediator.kt:84-92 | putting a new name and removing it gives the registry back, order included |
| NetworkMediator.RegisterThenUnregister | behavpetterns/src/main/kotlin/Mediator.kt:84-92 | a device that registers under a new name and unregisters leaves the network as it was |
| NetworkMediator.RegisterReplacesSameName | behavpetterns/src/main/kotlin/Mediator.kt:84-87 | registering a second device of the same name evicts the first, which hears nothing of the join |
| NetworkMediator.LeaverNotNotified | behavpetterns/src/main/kotlin/Mediator.kt:89-92 | no device under the leaver's name, and not the leaver, hears the farewell |
| NetworkMediator.CheckDeviceStatus | behavpetterns/src/main/kotlin/Mediator.kt:94-97 | null exactly for a name nobody is registered under, otherwise the status of a device of that name |
| NetworkMediator.StatusAnswers | behavpetterns/src/main/kotlin/Mediator.kt:94-97 | a registered router answers "Up" or "Down"; a computer answers "Connected to" its router's name, or "Disconnected" |
| NetworkMediator.RouterAcceptConnection | behavpetterns/src/main/kotlin/Mediator.kt:134-139 | an up router's record changes only by appending the device to its connections; a down router's record, and every other device and the registry, stay exactly as they were |
| NetworkMediator.RouterEstablishConnection | behavpetterns/src/main/kotlin/Mediator.kt:125-132 | a router's own connection attempt has exactly the effect of accepting that device |
| NetworkMediator.ComputerAcceptConnection | behavpetterns/src/main/kotlin/Mediator.kt:183-188 | the computer's record changes only by taking the device as its router, and only when the device is a router; every other device and the registry stay as they were |
| NetworkMediator.RequestConnection | behavpetterns/src/main/kotlin/Mediator.kt:70-82 | an unregistered target is "not found"; only a registered router target with a computer requester connects, setting the computer's router even when the router is down and growing the router's list only when up, with no other field of either record and no other device changed; otherwise nothing changes |
| NetworkMediator.ComputerEstablishConnection | behavpetterns/src/main/kotlin/Mediator.kt:171-180 | a non-router target is refused, the current router is "already connected", any other router goes to the mediator |
| NetworkMediator.RequestConnectionKeepsValid | behavpetterns/src/main/kotlin/Mediator.kt:70-82 | a connection request keeps every computer's router a router |
| NetworkMediator.RouterSendMessage | behavpetterns/src/main/kotlin/Mediator.kt:112-119 | a down router delivers nothing; an up one delivers the message to every registered device other than itself exactly once, and to no one else |
| NetworkMediator.ComputerSendMessage | behavpetterns/src/main/kotlin/Mediator.kt:161-166 | a computer without a router delivers nothing |
| NetworkMediator.ComputerMessageEchoes | behavpetterns/src/main/kotlin/Mediator.kt:161-166 | a computer's message, relayed by its up router, reaches every registered device but the router exactly once, the sending computer included when it is registered |
| NetworkMediator.GoDown | behavpetterns/src/main/kotlin/Mediator.kt:145-149 | the router is down; every other registered device receives "<name> (Router) is down!" exactly once and nobody else does; no other device and no registration changes, and a consistent network stays consistent |
| NetworkMediator.ComeUp | behavpetterns/src/main/kotlin/Mediator.kt:151-155 | the router is up; every other registered device receives "<name> (Router) is back up!" exactly once and nobody else does; no other device and no registration changes, and a consistent network stays consistent |
| NetworkMediator.DownThenUpRestores | behavpetterns/src/main/kotlin/Mediator.kt:145-155 | going down then up gives an up router's network back, and coming up then going down gives a down router's network back |
| NetworkMediator.DownRouterSilencesComputer | behavpetterns/src/main/kotlin/Mediator.kt:145-149 | once its router has gone down, a computer's messages reach nobody |
| NetworkObserver.RegisterObserver | behavpetterns/src/main/kotlin/Observer.kt:16-18 | the observer is appended, duplicates included; earlier entries keep their places |
| NetworkObserver.RemoveFirst | behavpetterns/src/main/kotlin/Observer.kt:20-22 | removing an absent observer changes nothing; a present one shortens the list by one |
| NetworkObserver.RemoveFirstMultiset | behavpetterns/src/main/kotlin/Observer.kt:20-22 | removal takes away exactly one registration of the observer |
| NetworkObserver.RemoveObserver | behavpetterns/src/main/kotlin/Observer.kt:20-22 | an unregistered observer leaves the list unchanged; otherwise one registration goes |
| NetworkObserver.RemoveFirstShape | behavpetterns/src/main/kotlin/Observer.kt:20-22 | it is the first occurrence that goes: earlier entries stay, later ones move up |
| NetworkObserver.RemoveUndoesRegister | behavpetterns/src/main/kotlin/Observer.kt:16-22 | registering then removing a new observer leaves the list as it was |
| NetworkObserver.RemoveAfterReRegister | behavpetterns/src/main/kotlin/Observer.kt:16-22 | registering an observer again then removing it drops the earlier entry, so it moves to the end |
| NetworkObserver.NotifyObservers | behavpetterns/src/main/kotlin/Observer.kt:24-28 | one `onEvent` call per list entry, in list order, all with the event |
| NetworkObserver.NotifiedOncePerRegistration | behavpetterns/src/main/kotlin/Observer.kt:16-28 | an observer hears an event as many times as it is registered |
| NetworkObserver.NewDeviceConnected | behavpetterns/src/main/kotlin/Observer.kt:24-32 | every registered observer, and nobody else, hears "device connected" with the name unchanged, once per registration and in registration order |
| NetworkObserver.DeviceDisconnected | behavpetterns/src/main/kotlin/Observer.kt:24-36 | every registered observer, and nobody else, hears "device disconnected" with the name unchanged, once per registration and in registration order |
| NetworkObserver.NewAdminDashboard | behavpetterns/src/main/kotlin/Observer.kt:47-50 | a new dashboard is registered, exactly once more than before |
| NetworkObserver.DashboardLine | behavpetterns/src/main/kotlin/Observer.kt:52-58 | a dashboard answers each event with one printed line |
| NetworkObserver.DashboardTranscript | behavpetterns/src/main/kotlin/Observer.kt:24-28 | dashboards print one line per notification, in notification order |
| NetworkObserver.DemoSingleDashboard | src/main/kotlin/Main.kt:288-293 | one dashboard on a new monitor prints exactly one line per event, naming the device |
| NetworkObserver.RemovedObserverNotNotified | behavpetterns/src/main/kotlin/Observer.kt:20-28 | an observer registered once hears nothing after its removal |
| PacketFlyweight.KeyInjectiveWithoutDashes | structuralpatterns/src/main/kotlin/Flyweight.kt:44-45 | when neither address contains "-", two requests have the same key exactly when they are the same request, so only identical requests share a flyweight |
| PacketFlyweight.GetPacket | structuralpatterns/src/main/kotlin/Flyweight.kt:43-46 | the result is cached under the key; a hit changes nothing; a miss adds exactly one flyweight carrying the requested fields |
| PacketFlyweight.GetPacketKeepsValid | structuralpatterns/src/main/kotlin/Flyweight.kt:40-46 | every flyweight stays under its own key, and a new one is a different instance from all cached ones |
| PacketFlyweight.GetPacketIdempotent | structuralpatterns/src/main/kotlin/Flyweight.kt:45 | asking twice for the same triple gives the same instance and no further change |
| PacketFlyweight.KeyCollision | structuralpatterns/src/main/kotlin/Flyweight.kt:44-45 | two different triples share a key, and the second caller gets the first's flyweight with the wrong source IP |
| PacketFlyweight.GetPacketsCachesRequestedKeys | structuralpatterns/src/main/kotlin/Flyweight.kt:41-45 | after a run the cache holds its old keys plus the requested ones, and keeps every old entry |
| PacketFlyweight.GetPacketsKeepsValid | structuralpatterns/src/main/kotlin/Flyweight.kt:41-45 | a run of requests keeps the cache consistent |
| PacketFlyweight.CacheSizeIsDistinctKeys | structuralpatterns/src/main/kotlin/Flyweight.kt:41-45 | from empty, the cache size is the number of distinct keys requested, and it never shrinks |
| PacketFlyweight.EqualKeysShareInstance | structuralpatterns/src/main/kotlin/Flyweight.kt:43-46 | two requests with equal keys get the same instance |
| PacketFlyweight.HandedOutIsCached | structuralpatterns/src/main/kotlin/Flyweight.kt:43-46 | the instance handed out for a request is the one the cache ends up holding under its key |
| PacketFlyweight.DifferentKeysDifferentInstances | structuralpatterns/src/main/kotlin/Flyweight.kt:43-46 | requests with different keys get different instances |
| PacketFlyweight.Process | structuralpatterns/src/main/kotlin/Flyweight.kt:34-37 | processing prints one line |
| PacketFlyweight.DemoSharesOneInstance | src/main/kotlin/Main.kt:140-152 | the demo's first and third packets share one flyweight, and the factory ends with four |
| RouterDecorator.Features | structuralpatterns/src/main/kotlin/Decorator.kt:58-97 | every wrapper makes the features text strictly longer |
| RouterDecorator.FeaturesFromLayers | structuralpatterns/src/main/kotlin/Decorator.kt:58-97 | a router's features are "Basic Wi-Fi connectivity" followed by each layer's suffix, innermost first |
| RouterDecorator.BaseFeaturesFirst | structuralpatterns/src/main/kotlin/Decorator.kt:60 | the basic router's text starts every router's features |
| RouterDecorator.DecorateAllLayers | structuralpatterns/src/main/kotlin/Decorator.kt:64-97 | decorating adds the new layers outside the existing ones, in order |
| RouterDecorator.LayersRoundTrip | structuralpatterns/src/main/kotlin/Decorator.kt:64-97 | a router is rebuilt from its layers, and a router built from a list has that list as its layers |
| RouterDecorator.DecorateAllFeatures | structuralpatterns/src/main/kotlin/Decorator.kt:64-97 | k decorations append their k suffixes in application order |
| RouterDecorator.WithParentalControlActsAsWithVpn | structuralpatterns/src/main/kotlin/Decorator.kt:76-97 | `withParentalControl` gives the same features as `withVPN` and not those of `parentalControlDecorator` |
| RouterDecorator.VpnDecorationsAgree | structuralpatterns/src/main/kotlin/Decorator.kt:69-89 | `vpnDecorator` and `withVPN` give the same features on any router |
| CpeBuilder.Apply | creationalpatterns/src/main/kotlin/CPEBuilder.kt:31-59 | a setter makes its field hold the argument and leaves every other field as it was |
| CpeBuilder.LastWrite | creationalpatterns/src/main/kotlin/CPEBuilder.kt:31-59 | reference reading: the last setter in a chain that writes a given field, or none |
| CpeBuilder.LastWriteWins | creationalpatterns/src/main/kotlin/CPEBuilder.kt:31-59 | after any chain each field holds the last value written to it, or its earlier value if none |
| CpeBuilder.Build | creationalpatterns/src/main/kotlin/CPEBuilder.kt:61-63 | the built CPE carries exactly the builder's six fields |
| CpeBuilder.ConfigureBasicCpe | creationalpatterns/src/main/kotlin/CPEBuilder.kt:67-76 | afterwards the builder holds every value the director sets |
| CpeBuilder.DirectorOverridesEverything | creationalpatterns/src/main/kotlin/CPEBuilder.kt:67-76 | any builder configured by the director builds ("BasicRouter 100", "GenericNetworking", false, 4, 1, false) |
| CpeBuilder.NegativePortsAccepted | creationalpatterns/src/main/kotlin/CPEBuilder.kt:46-49 | a negative LAN port count is accepted verbatim |
| CpeBuilder.FreshBuildsDefaults | creationalpatterns/src/main/kotlin/CPEBuilder.kt:24-29 | an untouched builder builds ("", "", false, 0, 0, false) |
| RouterFactory.Create | creationalpatterns/src/main/kotlin/UIFactory.kt:34-50 | a concrete factory makes a product exactly for its own family and throws for the other two |
| RouterFactory.NewCreator | creationalpatterns/src/main/kotlin/UIFactory.kt:19-25 | the creator picks the factory of the requested type |
| RouterFactory.CreatorCreate | creationalpatterns/src/main/kotlin/UIFactory.kt:27-29 | the creator succeeds exactly for its factory's family, with a product of that family |
| RouterFactory.CreatorChoiceRoundTrip | creationalpatterns/src/main/kotlin/UIFactory.kt:19-25 | choosing by type then asking the factory's type gives the type back, and each factory belongs to one type |
| RouterFactory.ExactlyOneFamilySucceeds | creationalpatterns/src/main/kotlin/UIFactory.kt:19-55 | for each type exactly the matching create call succeeds, with Netgear, Asus or Cisco respectively |

## Left out

- Clocks, thread names and sleeping: `LocalTime.now`, `System.currentTimeMillis`, `Thread.sleep`. A clock-stamped line is `Timed(text)` and the thread report is `ThreadReport`, without their contents. The switch's timestamped log lines keep only their message.
- The suspension of the enum router's reboot (`delay`): it is modelled as the two state writes it separates. The lemmas speak of states between completed calls.
- ObserverCorutines.kt (channels and coroutines) and the RxJava half of Observer.kt: concurrency and an external library.
- `cost()` in Decorator.kt and all of Strategy.kt: floating-point prices.
- Adapter.kt, Proxy.kt, Bridge.kt, facade.kt, Visitor.kt and Composite.kt: forwarding to printing, with no decisions.
- Main.kt is a demo driver; only the demo lemmas above follow its calls. Its `RouterFactory.createFactory` and `createRouter` do not exist in the factory file, so that part of the driver is not modelled.
- One mediator per network: each Kotlin device holds its own `mediator` reference, and `sendMessage`, `goDown`, `comeUp` and `establishConnection` go through it. The model has a single manager and assumes every device's mediator is the manager it is registered with; a device registered with a manager other than its own is not modelled.
- NetworkMediator.RouterSendMessage: exactly-once delivery is stated for registries where no device sits under two names; `ValidIdsDistinct` shows every consistent network is one.
- NetworkMediator.GoDown: exactly-once delivery carries the same condition as `RouterSendMessage`.
- NetworkMediator.ComeUp: exactly-once delivery carries the same condition as `RouterSendMessage`.
- NetworkMediator.RegisterDevice: exactly-once delivery is stated for the registry after the put, under the same condition as `RouterSendMessage`; `RegisterKeepsValid` and `ValidIdsDistinct` show it holds whenever the network was consistent.
- NetworkMediator.UnregisterDevice: exactly-once delivery carries the same condition, and `UnregisterKeepsValid` with `ValidIdsDistinct` show it holds whenever the network was consistent.
- The mediator's printed lines: a broadcast is modelled by the `receiveMessage` calls it makes, not by the text each device prints. `receiveMessage` itself only prints.
- The `toString` output of `CPE`, `EasyBoxGPRouter` and the router object printed by `Computer.sendMessage`.
- Command objects are values here. The source keeps references, so executing one `SetPasswordCommand` object twice would put the same object in the history twice; the model stores two copies, which behave the same on undo because the stub receiver always answers "old_password".
- RouterDecorator.Features: its ensures states only that each layer lengthens the text; the full composition is stated by `FeaturesFromLayers` and `BaseFeaturesFirst`.
- PacketFlyweight.Process: only states that one line is printed; the line's exact wording is not verified.
- NetworkObserver.DashboardLine: only states that one line is printed; the wording is checked in `DemoSingleDashboard`.
