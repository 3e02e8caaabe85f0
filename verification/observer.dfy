/** The Observer demo of Observer.kt: a `NetworkMonitor` subject keeps its
    observers in a list and calls each one's `onEvent` in list order;
    `AdminDashboard` observers register themselves on construction and
    print one line per event.

    Observers are objects compared by identity (`NetworkObserver` defines
    no `equals`), so each is an `ObserverId`. The observable effect of a
    notification is the sequence of `onEvent` calls it makes. */
module NetworkObserver {
  import opened Platform

  type ObserverId = nat

  datatype NetworkEvent = DeviceConnected(deviceName: string) | DeviceDisconnected(deviceName: string)

  /** The monitor's `observers` list. */
  datatype Monitor = Monitor(observers: seq<ObserverId>)

  const EmptyMonitor: Monitor := Monitor([])

  /** One `observer.onEvent(event)` call. */
  datatype Notification = Notification(observer: ObserverId, event: NetworkEvent)

  /** `registerObserver`: `add` appends, even an observer already present. */
  function RegisterObserver(m: Monitor, o: ObserverId): (m': Monitor)
    ensures |m'.observers| == |m.observers| + 1
    ensures m'.observers[..|m.observers|] == m.observers
    ensures m'.observers[|m.observers|] == o
    ensures multiset(m'.observers) == multiset(m.observers) + multiset{o}
  {
    Monitor(m.observers + [o])
  }

  /** `MutableList.remove`: drops the first occurrence of the observer, if any. */
  function RemoveFirst(xs: seq<ObserverId>, o: ObserverId): (r: seq<ObserverId>)
    ensures o !in xs ==> r == xs
    ensures o in xs ==> |r| == |xs| - 1
  {
    if |xs| == 0 then []
    else
      assert xs == [xs[0]] + xs[1..];
      if xs[0] == o then xs[1..]
      else [xs[0]] + RemoveFirst(xs[1..], o)
  }

  /** Removal takes away exactly one registration of the observer. */
  lemma {:induction false} RemoveFirstMultiset(xs: seq<ObserverId>, o: ObserverId)
    ensures multiset(RemoveFirst(xs, o)) == multiset(xs) - multiset{o}
  {
    if |xs| > 0 {
      assert xs == [xs[0]] + xs[1..];
      if xs[0] != o {
        RemoveFirstMultiset(xs[1..], o);
      }
    }
  }

  function RemoveObserver(m: Monitor, o: ObserverId): (m': Monitor)
    ensures o !in m.observers ==> m' == m
    ensures multiset(m'.observers) == multiset(m.observers) - multiset{o}
  {
    RemoveFirstMultiset(m.observers, o);
    Monitor(RemoveFirst(m.observers, o))
  }

  lemma RemoveObserverRemovesFirst(m: Monitor, o: ObserverId)
    ensures RemoveObserver(m, o).observers == RemoveFirst(m.observers, o)
  {
  }

  /** The observers before the first occurrence stay in place; those after
      it move up by one. */
  lemma {:induction false} RemoveFirstShape(xs: seq<ObserverId>, o: ObserverId, k: nat)
    requires k < |xs| && xs[k] == o && forall j :: 0 <= j < k ==> xs[j] != o
    ensures RemoveFirst(xs, o) == xs[..k] + xs[k + 1..]
  {
    if k > 0 {
      var t := xs[1..];
      assert forall j :: 0 <= j < k - 1 ==> t[j] == xs[j + 1];
      RemoveFirstShape(t, o, k - 1);
      calc {
        RemoveFirst(xs, o);
        [xs[0]] + RemoveFirst(t, o);
        [xs[0]] + (t[..k - 1] + t[k..]);
        { assert t[..k - 1] == xs[1..k]; assert t[k..] == xs[k + 1..]; }
        [xs[0]] + (xs[1..k] + xs[k + 1..]);
        { assert [xs[0]] + xs[1..k] == xs[..k]; }
        xs[..k] + xs[k + 1..];
      }
    } else {
      assert xs[..0] + xs[1..] == xs[1..];
    }
  }

  /** Registering then removing an observer that was not yet registered
      leaves the list as it was. */
  lemma RemoveUndoesRegister(m: Monitor, o: ObserverId)
    requires o !in m.observers
    ensures RemoveObserver(RegisterObserver(m, o), o) == m
  {
    var xs := m.observers + [o];
    RemoveFirstShape(xs, o, |m.observers|);
    assert xs[..|m.observers|] == m.observers;
  }

  /** With an earlier registration, removal takes the earlier one: the same
      observers remain but the observer moves to the end of the list. */
  lemma RemoveAfterReRegister(m: Monitor, o: ObserverId, k: nat)
    requires k < |m.observers| && m.observers[k] == o && forall j :: 0 <= j < k ==> m.observers[j] != o
    ensures RemoveObserver(RegisterObserver(m, o), o).observers ==
              m.observers[..k] + m.observers[k + 1..] + [o]
  {
    var xs := m.observers + [o];
    assert RegisterObserver(m, o).observers == xs;
    RemoveObserverRemovesFirst(RegisterObserver(m, o), o);
    RemoveFirstShape(xs, o, k);
    assert xs[..k] == m.observers[..k];
    assert xs[k + 1..] == m.observers[k + 1..] + [o];
    ConcatAssoc(m.observers[..k], m.observers[k + 1..], [o]);
  }


  /** `notifyObservers`: one `onEvent` call per list entry, in list order. */
  function NotifyObservers(m: Monitor, e: NetworkEvent): (ns: seq<Notification>)
    ensures |ns| == |m.observers|
    ensures forall i :: 0 <= i < |ns| ==> ns[i].observer == m.observers[i] && ns[i].event == e
    decreases |m.observers|
  {
    if |m.observers| == 0 then []
    else [Notification(m.observers[0], e)] + NotifyObservers(Monitor(m.observers[1..]), e)
  }

  /** Each observer hears an event as many times as it is registered. */
  lemma {:induction false} NotifiedOncePerRegistration(m: Monitor, e: NetworkEvent, o: ObserverId)
    ensures multiset(NotifyObservers(m, e))[Notification(o, e)] == multiset(m.observers)[o]
    decreases |m.observers|
  {
    if |m.observers| > 0 {
      var first := m.observers[0];
      var tail := Monitor(m.observers[1..]);
      NotifyCons(m, e);
      NotifiedOncePerRegistration(tail, e, o);
      CountConcat([Notification(first, e)], NotifyObservers(tail, e), Notification(o, e));
      CountCons(m.observers, o);
    }
  }

  lemma CountCons(xs: seq<ObserverId>, x: ObserverId)
    requires |xs| > 0
    ensures multiset(xs)[x] == multiset([xs[0]])[x] + multiset(xs[1..])[x]
  {
    assert xs == [xs[0]] + xs[1..];
  }

  lemma NotifyCons(m: Monitor, e: NetworkEvent)
    requires |m.observers| > 0
    ensures NotifyObservers(m, e) ==
              [Notification(m.observers[0], e)] + NotifyObservers(Monitor(m.observers[1..]), e)
  {
  }

  lemma CountConcat<T>(a: seq<T>, b: seq<T>, x: T)
    ensures multiset(a + b)[x] == multiset(a)[x] + multiset(b)[x]
  {
  }

  /** `newDeviceConnected`: every registered observer hears of the device,
      in registration order. */
  function NewDeviceConnected(m: Monitor, deviceName: string): (ns: seq<Notification>)
    ensures forall n :: n in ns ==> n.event == DeviceConnected(deviceName) && n.observer in m.observers
    ensures |ns| == |m.observers|
    ensures forall i :: 0 <= i < |ns| ==> ns[i] == Notification(m.observers[i], DeviceConnected(deviceName))
  {
    NotifyObservers(m, DeviceConnected(deviceName))
  }

  /** `deviceDisconnected`: every registered observer hears of the
      departure, in registration order. */
  function DeviceDisconnected(m: Monitor, deviceName: string): (ns: seq<Notification>)
    ensures forall n :: n in ns ==> n.event == NetworkEvent.DeviceDisconnected(deviceName) && n.observer in m.observers
    ensures |ns| == |m.observers|
    ensures forall i :: 0 <= i < |ns| ==> ns[i] == Notification(m.observers[i], NetworkEvent.DeviceDisconnected(deviceName))
  {
    NotifyObservers(m, NetworkEvent.DeviceDisconnected(deviceName))
  }

  /** Constructing an `AdminDashboard` registers it with its monitor. */
  function NewAdminDashboard(m: Monitor, dashboard: ObserverId): (m': Monitor)
    ensures dashboard in m'.observers
    ensures multiset(m'.observers)[dashboard] == multiset(m.observers)[dashboard] + 1
  {
    RegisterObserver(m, dashboard)
  }

  /** `AdminDashboard.onEvent`: the line it prints. */
  function DashboardLine(e: NetworkEvent): (l: Line)
    ensures l.Out?
  {
    match e
    case DeviceConnected(n) => Out("Dashboard: New device connected: " + n)
    case DeviceDisconnected(n) => Out("Dashboard: Device disconnected: " + n)
  }

  /** What a monitor whose observers are all dashboards prints for an
      event: one line per notification. */
  function DashboardTranscript(ns: seq<Notification>): (lines: seq<Line>)
    ensures |lines| == |ns|
    ensures forall i :: 0 <= i < |ns| ==> lines[i] == DashboardLine(ns[i].event)
  {
    if |ns| == 0 then [] else [DashboardLine(ns[0].event)] + DashboardTranscript(ns[1..])
  }

  /** The observer part of the demo driver: one dashboard on a new monitor
      prints exactly one line per event, naming the device. */
  lemma DemoSingleDashboard(dashboard: ObserverId, deviceName: string)
    ensures var m := NewAdminDashboard(EmptyMonitor, dashboard);
            && DashboardTranscript(NewDeviceConnected(m, deviceName)) ==
                 [Out("Dashboard: New device connected: " + deviceName)]
            && DashboardTranscript(DeviceDisconnected(m, deviceName)) ==
                 [Out("Dashboard: Device disconnected: " + deviceName)]
  {
  }

  /** After its removal a dashboard registered once hears nothing more. */
  lemma RemovedObserverNotNotified(m: Monitor, o: ObserverId, e: NetworkEvent)
    requires multiset(m.observers)[o] <= 1
    ensures forall n :: n in NotifyObservers(RemoveObserver(m, o), e) ==> n.observer != o
  {
    var r := RemoveObserver(m, o);
    assert multiset(r.observers)[o] == 0;
  }
}
