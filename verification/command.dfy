/** The Command demo of Command.kt: two concrete commands over the stub
    receiver `IGPRouter`, and the `NetworkAdminConsole` invoker that keeps
    the executed commands for LIFO undo.

    The receiver is a stub whose only observable behaviour is the sequence
    of calls made on it (and `getPassword`, which always answers
    "old_password"), so the model records that call trace. */
module CommandHistory {
  import opened Platform

  /** One call on the receiver `IGPRouter`. */
  datatype RouterCall = EnableWifi | DisableWifi | GetPassword | SetPassword(password: string)

  /** What `IGPRouter.getPassword` returns, whatever happened before. */
  const StubPassword: string := "old_password"

  /** A command object. `SetPasswordCommand` fills in `oldPassword` (initially
      `null`) when it executes. */
  datatype Command =
    | EnableWifiCommand
    | SetPasswordCommand(newPassword: string, oldPassword: Option<string>)

  /** A command that has run `execute` at least once. */
  predicate Executed(c: Command) {
    c.SetPasswordCommand? ==> c.oldPassword.Some?
  }

  /** What a call on a command does: the command afterwards, the receiver
      calls in order, and the lines printed. */
  datatype Effect = Effect(command: Command, calls: seq<RouterCall>, lines: seq<Line>)

  /** How a string template renders a `String?`. */
  function ShowNullable(s: Option<string>): string {
    match s
    case None => "null"
    case Some(v) => v
  }

  /** `execute()`. `SetPasswordCommand` asks the receiver for the current
      password before setting the new one, and keeps the answer. */
  function Execute(c: Command): (e: Effect)
    ensures Executed(e.command)
    ensures |e.calls| > 0 && e.calls[|e.calls| - 1] == (if c.EnableWifiCommand? then EnableWifi else SetPassword(c.newPassword))
  {
    match c
    case EnableWifiCommand =>
      Effect(c, [EnableWifi], [Out("Wi-Fi enabled")])
    case SetPasswordCommand(p, _) =>
      Effect(SetPasswordCommand(p, Some(StubPassword)), [GetPassword, SetPassword(p)],
             [Out("Password changed to " + p)])
  }

  /** `undo()`. Enabling Wi-Fi is undone by disabling it, whatever it was
      before; a password is put back only when one was recorded. */
  function Undo(c: Command): (e: Effect)
    ensures e.command == c
    ensures c.EnableWifiCommand? ==> e.calls == [DisableWifi]
    ensures c.SetPasswordCommand? ==>
              (e.calls == [] <==> c.oldPassword == None) &&
              (c.oldPassword.Some? ==> e.calls == [SetPassword(c.oldPassword.value)])
  {
    match c
    case EnableWifiCommand =>
      Effect(c, [DisableWifi], [Out("Wi-Fi disabled (undo)")])
    case SetPasswordCommand(_, recorded) =>
      Effect(c, if recorded.Some? then [SetPassword(recorded.value)] else [],
             [Out("Password reverted to " + ShowNullable(recorded) + " (undo)")])
  }

  /** The invoker: the executed commands, most recent last. */
  datatype AdminConsole = AdminConsole(history: seq<Command>)

  const EmptyConsole: AdminConsole := AdminConsole([])

  /** What a console call leaves behind. */
  datatype Reply = Reply(console: AdminConsole, calls: seq<RouterCall>, lines: seq<Line>)

  /** `executeCommand`: run the command, then record it. */
  function ExecuteCommand(con: AdminConsole, c: Command): (r: Reply)
    ensures |r.console.history| == |con.history| + 1
    ensures r.console.history[..|con.history|] == con.history
    ensures r.console.history[|con.history|] == Execute(c).command
    ensures r.calls == Execute(c).calls
  {
    var e := Execute(c);
    Reply(AdminConsole(con.history + [e.command]), e.calls, e.lines)
  }

  /** `undoLastCommand`: pop the last command and undo it, or only print
      when there is nothing to undo. */
  function UndoLastCommand(con: AdminConsole): (r: Reply)
    ensures |con.history| == 0 ==> r == Reply(con, [], [Out("No commands to undo")])
    ensures |con.history| > 0 ==>
              && r.console.history == con.history[..|con.history| - 1]
              && r.calls == Undo(con.history[|con.history| - 1]).calls
  {
    if |con.history| > 0 then
      var last := con.history[|con.history| - 1];
      var e := Undo(last);
      Reply(AdminConsole(con.history[..|con.history| - 1]), e.calls, e.lines)
    else
      Reply(con, [], [Out("No commands to undo")])
  }

  /** Every command the console holds has been executed, so its undo always
      acts on the receiver. */
  predicate HistoryExecuted(con: AdminConsole) {
    forall i :: 0 <= i < |con.history| ==> Executed(con.history[i])
  }

  lemma ConsoleKeepsHistoryExecuted(con: AdminConsole, c: Command)
    requires HistoryExecuted(con)
    ensures HistoryExecuted(ExecuteCommand(con, c).console)
    ensures HistoryExecuted(UndoLastCommand(con).console)
    ensures |con.history| > 0 ==> |UndoLastCommand(con).calls| == 1
  {
    if |con.history| > 0 {
      assert Executed(con.history[|con.history| - 1]);
    }
  }

  /** Execute every command of `cs` in turn. */
  function ExecuteAll(con: AdminConsole, cs: seq<Command>): (r: Reply)
    decreases |cs|
  {
    if |cs| == 0 then Reply(con, [], [])
    else
      var r1 := ExecuteCommand(con, cs[0]);
      var r2 := ExecuteAll(r1.console, cs[1..]);
      Reply(r2.console, r1.calls + r2.calls, r1.lines + r2.lines)
  }

  /** Call `undoLastCommand` `k` times. */
  function UndoTimes(con: AdminConsole, k: nat): (r: Reply)
    decreases k
  {
    if k == 0 then Reply(con, [], [])
    else
      var r1 := UndoLastCommand(con);
      var r2 := UndoTimes(r1.console, k - 1);
      Reply(r2.console, r1.calls + r2.calls, r1.lines + r2.lines)
  }

  /** Executing appends exactly the executed commands, in order. */
  lemma {:induction false} ExecuteAllAppends(con: AdminConsole, cs: seq<Command>)
    ensures |ExecuteAll(con, cs).console.history| == |con.history| + |cs|
    ensures ExecuteAll(con, cs).console.history[..|con.history|] == con.history
    ensures forall i :: 0 <= i < |cs| ==>
              ExecuteAll(con, cs).console.history[|con.history| + i] == Execute(cs[i]).command
    decreases |cs|
  {
    if |cs| > 0 {
      var r1 := ExecuteCommand(con, cs[0]);
      var rest := cs[1..];
      ExecuteAllAppends(r1.console, rest);
      var h := ExecuteAll(con, cs).console.history;
      var n := |con.history|;
      assert h == ExecuteAll(r1.console, rest).console.history;
      assert h[..|r1.console.history|] == r1.console.history;
      assert h[..n] == h[..|r1.console.history|][..n];
      forall i | 0 <= i < |cs| ensures h[n + i] == Execute(cs[i]).command {
        if i == 0 {
          assert h[n] == r1.console.history[n];
        } else {
          assert rest[i - 1] == cs[i];
          assert h[(n + 1) + (i - 1)] == Execute(rest[i - 1]).command;
        }
      }
    }
  }

  /** Undo never re-records anything: `k` undos drop the last `k` commands,
      or empty the history when there are fewer. */
  lemma {:induction false} UndoTimesPops(con: AdminConsole, k: nat)
    ensures var n := if k <= |con.history| then |con.history| - k else 0;
            UndoTimes(con, k).console.history == con.history[..n]
    decreases k
  {
    if k > 0 {
      var r1 := UndoLastCommand(con);
      UndoTimesPops(r1.console, k - 1);
      if |con.history| > 0 {
        var m := |con.history| - 1;
        var n := if k - 1 <= m then m - (k - 1) else 0;
        assert con.history[..m][..n] == con.history[..n];
      }
    } else {
      assert con.history[..|con.history|] == con.history;
    }
  }

  /** N executes followed by N undos give back the history as it was, and
      one more undo on a console that started empty leaves it empty. */
  lemma ExecutesThenUndosRestoreHistory(con: AdminConsole, cs: seq<Command>)
    ensures UndoTimes(ExecuteAll(con, cs).console, |cs|).console == con
    ensures UndoTimes(ExecuteAll(EmptyConsole, cs).console, |cs| + 1).console == EmptyConsole
  {
    ExecuteAllAppends(con, cs);
    UndoTimesPops(ExecuteAll(con, cs).console, |cs|);
    ExecuteAllAppends(EmptyConsole, cs);
    UndoTimesPops(ExecuteAll(EmptyConsole, cs).console, |cs| + 1);
  }

  /** The command part of the demo driver: the receiver sees Wi-Fi enabled,
      the password read and changed, then put back to "old_password", then
      Wi-Fi disabled. */
  lemma DemoReceiverTrace(p: string)
    ensures var r1 := ExecuteCommand(EmptyConsole, EnableWifiCommand);
            var r2 := ExecuteCommand(r1.console, SetPasswordCommand(p, None));
            var r3 := UndoLastCommand(r2.console);
            var r4 := UndoLastCommand(r3.console);
            && r1.calls + r2.calls + r3.calls + r4.calls
               == [EnableWifi, GetPassword, SetPassword(p), SetPassword("old_password"), DisableWifi]
            && r4.console == EmptyConsole
            && r3.lines == [Out("Password reverted to " + "old_password" + " (undo)")]
  {
    var r1 := ExecuteCommand(EmptyConsole, EnableWifiCommand);
    var r2 := ExecuteCommand(r1.console, SetPasswordCommand(p, None));
    assert r2.console.history == [EnableWifiCommand, SetPasswordCommand(p, Some(StubPassword))];
    var r3 := UndoLastCommand(r2.console);
    assert r3.console.history == [EnableWifiCommand];
  }
}
