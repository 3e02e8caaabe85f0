/** The Memento demo of Memento.kt: an `EasyBoxGPRouter` originator with
    three configuration fields, the immutable `RouterStateMemento` it
    exports, and the `RouterStateManager` caretaker that keeps mementos on a
    stack. Router values are immutable here, so each mutating method returns
    the router as it is after the call. */
module RouterMemento {
  import opened Platform

  /** The private fields of an `EasyBoxGPRouter`. */
  datatype Router = Router(wifiEnabled: bool, password: string, settings: map<string, string>)

  /** A `RouterStateMemento`: a copy of the three fields. */
  datatype Memento = Memento(wifiEnabled: bool, password: string, settings: map<string, string>)

  /** A newly constructed router. */
  const FreshRouter: Router := Router(false, "", map[])

  function EnableWifi(r: Router): (r': Router)
    ensures r'.wifiEnabled
    ensures r'.password == r.password && r'.settings == r.settings
  {
    r.(wifiEnabled := true)
  }

  function DisableWifi(r: Router): (r': Router)
    ensures !r'.wifiEnabled
    ensures r'.password == r.password && r'.settings == r.settings
  {
    r.(wifiEnabled := false)
  }

  function SetPassword(r: Router, newPassword: string): (r': Router)
    ensures r'.password == newPassword
    ensures r'.wifiEnabled == r.wifiEnabled && r'.settings == r.settings
  {
    r.(password := newPassword)
  }

  /** `otherSettings[key] = value`: adds or overwrites one key and nothing else. */
  function SetSetting(r: Router, key: string, value: string): (r': Router)
    ensures key in r'.settings && r'.settings[key] == value
    ensures r'.settings.Keys == r.settings.Keys + {key}
    ensures forall k :: k in r.settings && k != key ==> r'.settings[k] == r.settings[k]
    ensures r'.wifiEnabled == r.wifiEnabled && r'.password == r.password
  {
    r.(settings := r.settings[key := value])
  }

  function CreateMemento(r: Router): Memento {
    Memento(r.wifiEnabled, r.password, r.settings)
  }

  /** Overwrites the two scalar fields and replaces the settings map by the
      memento's: `clear()` then `putAll`. */
  function RestoreFromMemento(r: Router, m: Memento): Router {
    Router(m.wifiEnabled, m.password, m.settings)
  }

  /** Restoring a router's own memento gives the router back. */
  lemma RestoreAfterCreate(r: Router)
    ensures RestoreFromMemento(r, CreateMemento(r)) == r
  {
  }

  /** Restoring depends only on the memento, and a memento taken just after
      a restore is the memento restored: nothing is lost in either direction. */
  lemma CreateAfterRestore(r: Router, m: Memento)
    ensures CreateMemento(RestoreFromMemento(r, m)) == m
    ensures forall r2: Router :: RestoreFromMemento(r2, m) == RestoreFromMemento(r, m)
  {
  }

  /** Keys added after the snapshot are gone after a restore. */
  lemma RestoreDropsNewKeys(r: Router, key: string, value: string)
    requires key !in r.settings
    ensures key !in RestoreFromMemento(SetSetting(r, key, value), CreateMemento(r)).settings
  {
  }

  /** One of the router's configuration calls. */
  datatype Edit =
    | EnableWifiEdit
    | DisableWifiEdit
    | SetPasswordEdit(password: string)
    | SetSettingEdit(key: string, value: string)

  function ApplyEdit(r: Router, e: Edit): Router {
    match e
    case EnableWifiEdit => EnableWifi(r)
    case DisableWifiEdit => DisableWifi(r)
    case SetPasswordEdit(p) => SetPassword(r, p)
    case SetSettingEdit(k, v) => SetSetting(r, k, v)
  }

  function ApplyEdits(r: Router, edits: seq<Edit>): Router
    decreases |edits|
  {
    if |edits| == 0 then r else ApplyEdits(ApplyEdit(r, edits[0]), edits[1..])
  }

  /** The `RouterStateManager` stack; its top is the last element. */
  datatype Caretaker = Caretaker(mementos: seq<Memento>)

  const EmptyCaretaker: Caretaker := Caretaker([])

  function SaveMemento(c: Caretaker, m: Memento): (c': Caretaker)
    ensures |c'.mementos| == |c.mementos| + 1
  {
    Caretaker(c.mementos + [m])
  }

  /** `undo()`: pops and returns the most recent memento, or `null` and no
      change when the stack is empty. */
  function Undo(c: Caretaker): (r: (Caretaker, Option<Memento>))
    ensures |c.mementos| == 0 <==> r.1 == None
    ensures |c.mementos| == 0 ==> r.0 == c
    ensures |c.mementos| > 0 ==> r.0.mementos + [r.1.value] == c.mementos
  {
    if |c.mementos| > 0 then
      (Caretaker(c.mementos[..|c.mementos| - 1]), Some(c.mementos[|c.mementos| - 1]))
    else
      (c, None)
  }

  /** The caretaker is a stack: an undo right after a save returns the saved
      memento and leaves the stack as it was. */
  lemma UndoAfterSave(c: Caretaker, m: Memento)
    ensures Undo(SaveMemento(c, m)) == (c, Some(m))
  {
    assert (c.mementos + [m])[..|c.mementos|] == c.mementos;
  }

  /** `k` undos in a row: the caretaker left and the mementos returned in order. */
  function UndoTimes(c: Caretaker, k: nat): (Caretaker, seq<Option<Memento>>)
    decreases k
  {
    if k == 0 then (c, [])
    else
      var (c1, m) := Undo(c);
      var (c2, ms) := UndoTimes(c1, k - 1);
      (c2, [m] + ms)
  }

  function Reverse<T>(xs: seq<T>): seq<T> {
    if |xs| == 0 then [] else [xs[|xs| - 1]] + Reverse(xs[..|xs| - 1])
  }

  function Somes<T>(xs: seq<T>): seq<Option<T>> {
    if |xs| == 0 then [] else [Some(xs[0])] + Somes(xs[1..])
  }

  /** Saving several mementos and undoing as many times returns them newest
      first and leaves the caretaker as it was. */
  lemma {:induction false} UndosReturnSavesNewestFirst(c: Caretaker, ms: seq<Memento>)
    ensures UndoTimes(Caretaker(c.mementos + ms), |ms|) == (c, Somes(Reverse(ms)))
    decreases |ms|
  {
    if |ms| > 0 {
      var last := ms[|ms| - 1];
      var init := ms[..|ms| - 1];
      assert c.mementos + ms == (c.mementos + init) + [last];
      UndoAfterSave(Caretaker(c.mementos + init), last);
      UndosReturnSavesNewestFirst(c, init);
      assert Reverse(ms) == [last] + Reverse(init);
      assert Somes(Reverse(ms)) == [Some(last)] + Somes(Reverse(init));
    } else {
      assert c.mementos + ms == c.mementos;
    }
  }

  /** An undo on an empty caretaker returns `null` and keeps it empty. */
  lemma UndoOnEmpty()
    ensures Undo(EmptyCaretaker) == (EmptyCaretaker, None)
  {
  }

  /** Save, then any configuration changes, then undo and restore: the
      router is back to what it was at the save, and the caretaker too. */
  lemma SaveEditUndoRestore(r: Router, c: Caretaker, edits: seq<Edit>)
    ensures var (c', m) := Undo(SaveMemento(c, CreateMemento(r)));
            && c' == c
            && m.Some?
            && RestoreFromMemento(ApplyEdits(r, edits), m.value) == r
  {
    UndoAfterSave(c, CreateMemento(r));
  }

  /** The memento part of the demo driver. */
  lemma DemoRestoresSavedState()
    ensures var r := SetSetting(SetPassword(EnableWifi(FreshRouter), "securePassword"), "firewall", "enabled");
            var c := SaveMemento(EmptyCaretaker, CreateMemento(r));
            var modified := SetSetting(SetPassword(DisableWifi(r), "new_password"), "firewall", "disabled");
            var (c', m) := Undo(c);
            && m.Some?
            && c' == EmptyCaretaker
            && RestoreFromMemento(modified, m.value) == Router(true, "securePassword", map["firewall" := "enabled"])
  {
    var r := SetSetting(SetPassword(EnableWifi(FreshRouter), "securePassword"), "firewall", "enabled");
    UndoAfterSave(EmptyCaretaker, CreateMemento(r));
  }
}
