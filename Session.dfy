/**
 * The main process's session slots `currentSSH` and `currentShell`, driven by
 * the `connect-ssh` handler, the shell's `data` and `close` events, the
 * window's `closed` event and the `ssh-input` handler. Every call into the
 * SSH library and every message sent to the renderer is an entry of an
 * effect log.
 */
module Session {
  import opened Wrappers
  import opened Profiles
  import opened SshConfig

  /** The outcome of a foreign asynchronous call (`ssh.connect`, `ssh.requestShell`). */
  datatype Outcome = Done | Failed(message: string)

  /** What the main process does to the outside world, in order. */
  datatype Effect =
    | Dial(client: nat, params: SshParams)      // ssh.connect(sshConfig)
    | Notify(channel: string, message: string)  // event.sender.send(channel, message)
    | RequestShell(client: nat)                 // ssh.requestShell()
    | Dispose(client: nat)                      // ssh.dispose()
    | Write(shell: nat, data: string)           // currentShell.write(data)

  const ConnectedMessage := "SSH connection established."
  const ClosedMessage := "SSH connection closed."

  /**
   * The handlers' shared state. Clients and shells are named by the number
   * they were created under; `shells` maps each open shell (its `data` and
   * `close` listeners attached, not yet closed) to the client it belongs to;
   * `closedListeners` counts the window `closed` listeners registered.
   */
  datatype State = State(
    currentSSH: Option<nat>,
    currentShell: Option<nat>,
    shells: map<nat, nat>,
    closedListeners: nat,
    nextId: nat)

  /** A new state and the effects produced on the way to it. */
  datatype Transition = Transition(state: State, effects: seq<Effect>)

  /** Both slots empty, nothing opened yet. */
  function Initial(): State {
    State(None, None, map[], 0, 0)
  }

  /** The slots agree with the open shells: a held shell is open and its client is the held client. */
  ghost predicate Inv(s: State) {
    (s.currentShell.Some? ==>
       s.currentShell.value in s.shells && s.currentSSH == Some(s.shells[s.currentShell.value])) &&
    (s.currentSSH.Some? ==> s.currentShell.Some?) &&
    (forall sh :: sh in s.shells ==> sh < s.nextId && s.shells[sh] < sh)
  }

  /** The effects of the catch block: the message on `ssh-error`, then disposal of whatever client is held. */
  function CatchBlock(s: State, message: string): Transition {
    Transition(
      s.(currentSSH := None, currentShell := None),
      [Notify("ssh-error", message)] + (if s.currentSSH.Some? then [Dispose(s.currentSSH.value)] else []))
  }

  /** `prefix` happened before the transition `t`. */
  function After(prefix: seq<Effect>, t: Transition): Transition {
    Transition(t.state, prefix + t.effects)
  }

  /**
   * One `connect-ssh` request: a new client, the parameters, the dial, the
   * `ssh-connected` notice, the shell request and the listeners; any throw
   * goes to the catch block.
   */
  function Connect(s: State, p: Profile, key: FileRead, dial: Outcome, shellRequest: Outcome): Transition {
    var client := s.nextId;
    var s1 := s.(nextId := client + 1);
    match BuildConfig(p, key)
    case Err(message) => CatchBlock(s1, message)
    case Ok(params) => Dialled(s1, client, params, dial, shellRequest)
  }

  /** The part of `connect-ssh` after the parameters were built: dial, notice, shell. */
  function Dialled(s: State, client: nat, params: SshParams, dial: Outcome, shellRequest: Outcome): Transition {
    if dial.Failed? then After([Dial(client, params)], CatchBlock(s, dial.message))
    else
      var s2 := s.(currentSSH := Some(client));
      var sent := [Dial(client, params), Notify("ssh-connected", ConnectedMessage), RequestShell(client)];
      if shellRequest.Failed? then After(sent, CatchBlock(s2, shellRequest.message))
      else
        var shell := s2.nextId;
        Transition(
          s2.(currentShell := Some(shell), shells := s2.shells[shell := client],
              closedListeners := s2.closedListeners + 1, nextId := shell + 1),
          sent)
  }

  /** A shell's `data` event: the text is forwarded on `ssh-output`, whichever shell is held. */
  function ShellData(s: State, shell: nat, data: string): Transition {
    if shell in s.shells then Transition(s, [Notify("ssh-output", data)]) else Transition(s, [])
  }

  /**
   * A shell's `close` event: `ssh-disconnected`, both slots cleared (whoever
   * holds them), and the shell's own client disposed if still connected.
   */
  function ShellClose(s: State, shell: nat, stillConnected: bool): Transition {
    if shell in s.shells then
      Transition(
        s.(currentSSH := None, currentShell := None, shells := s.shells - {shell}),
        [Notify("ssh-disconnected", ClosedMessage)] + (if stillConnected then [Dispose(s.shells[shell])] else []))
    else Transition(s, [])
  }

  /** One window `closed` listener: dispose the held client, clear both slots. */
  function ClosedListener(s: State): Transition {
    Transition(
      s.(currentSSH := None, currentShell := None),
      if s.currentSSH.Some? then [Dispose(s.currentSSH.value)] else [])
  }

  /** The first `n` window `closed` listeners run one after the other. */
  function RunClosedListeners(s: State, n: nat): Transition {
    if n == 0 then Transition(s, [])
    else
      var t := RunClosedListeners(s, n - 1);
      var u := ClosedListener(t.state);
      Transition(u.state, t.effects + u.effects)
  }

  /** The window's `closed` event: every registered listener runs. */
  function WindowClosed(s: State): Transition {
    RunClosedListeners(s, s.closedListeners)
  }

  /** `ssh-input`: the data is written to the held shell when it is writable, dropped otherwise. */
  function Input(s: State, data: string, writable: bool): Transition {
    if s.currentShell.Some? && writable then Transition(s, [Write(s.currentShell.value, data)])
    else Transition(s, [])
  }

  /** The events the main process reacts to, one at a time. */
  datatype Event =
    | ConnectSsh(profile: Profile, key: FileRead, dial: Outcome, shellRequest: Outcome)
    | ShellOutput(shell: nat, data: string)
    | ShellClosed(shell: nat, stillConnected: bool)
    | WindowClosedEvent
    | SshInput(data: string, writable: bool)

  function Step(s: State, e: Event): Transition {
    match e
    case ConnectSsh(p, key, dial, shellRequest) => Connect(s, p, key, dial, shellRequest)
    case ShellOutput(shell, data) => ShellData(s, shell, data)
    case ShellClosed(shell, stillConnected) => ShellClose(s, shell, stillConnected)
    case WindowClosedEvent => WindowClosed(s)
    case SshInput(data, writable) => Input(s, data, writable)
  }

  /** A sequential trace of events from `s`. */
  function Run(s: State, events: seq<Event>): Transition
    decreases |events|
  {
    if events == [] then Transition(s, [])
    else After(Step(s, events[0]).effects, Run(Step(s, events[0]).state, events[1..]))
  }

  // ---------------------------------------------------------------------
  // Properties of one connect request.

  /**
   * What a connect request reports: `ssh-connected` exactly when the
   * parameters were built and the dial succeeded; `ssh-error` exactly when
   * something threw; both slots empty afterwards exactly in that case.
   */
  lemma ConnectNotices(s: State, p: Profile, key: FileRead, dial: Outcome, shellRequest: Outcome)
    ensures var t := Connect(s, p, key, dial, shellRequest);
            var failed := BuildConfig(p, key).Err? || dial.Failed? || shellRequest.Failed?;
            && (Notify("ssh-connected", ConnectedMessage) in t.effects <==> BuildConfig(p, key).Ok? && dial.Done?)
            && ((exists m :: Notify("ssh-error", m) in t.effects) <==> failed)
            && (failed <==> t.state.currentSSH == None && t.state.currentShell == None)
  {
    var t := Connect(s, p, key, dial, shellRequest);
    if BuildConfig(p, key).Ok? && dial.Done? && shellRequest.Done? {
      forall m ensures Notify("ssh-error", m) !in t.effects {
      }
    }
  }

  /** Parameters that cannot be built fail before any dial: only the message is reported. */
  lemma ConfigErrorBeforeDial(s: State, p: Profile, key: FileRead, dial: Outcome, shellRequest: Outcome)
    requires BuildConfig(p, key).Err?
    ensures var t := Connect(s, p, key, dial, shellRequest);
            && t.effects[0] == Notify("ssh-error", BuildConfig(p, key).message)
            && forall e :: e in t.effects ==> !e.Dial? && !e.RequestShell? && !(e.Notify? && e.channel == "ssh-connected")
  {
  }

  /** Neither a key path nor a password: the fixed message, and no dial. */
  lemma NoAuthenticationNoDial(s: State, p: Profile, key: FileRead, dial: Outcome, shellRequest: Outcome)
    requires !Present(p.privateKeyPath) && !Present(p.password)
    ensures var t := Connect(s, p, key, dial, shellRequest);
            && t.effects[0] == Notify("ssh-error", NoAuthMessage)
            && forall e :: e in t.effects ==> !e.Dial?
  {
    ConfigErrorBeforeDial(s, p, key, dial, shellRequest);
  }

  /** A successful request: dial, then `ssh-connected`, then the shell request; the new pair is held. */
  lemma ConnectSuccess(s: State, p: Profile, key: FileRead, shellRequest: Outcome)
    requires BuildConfig(p, key).Ok? && shellRequest.Done?
    ensures var t := Connect(s, p, key, Done, shellRequest);
            && t.effects == [Dial(s.nextId, BuildConfig(p, key).value),
                             Notify("ssh-connected", ConnectedMessage), RequestShell(s.nextId)]
            && t.state.currentSSH == Some(s.nextId)
            && t.state.currentShell == Some(s.nextId + 1)
            && t.state.shells == s.shells[s.nextId + 1 := s.nextId]
  {
  }

  /** A failed shell request after a good dial disposes the new client, after `ssh-connected`. */
  lemma ShellRequestFailure(s: State, p: Profile, key: FileRead, message: string)
    requires BuildConfig(p, key).Ok?
    ensures Connect(s, p, key, Done, Failed(message)).effects ==
              [Dial(s.nextId, BuildConfig(p, key).value), Notify("ssh-connected", ConnectedMessage),
               RequestShell(s.nextId), Notify("ssh-error", message), Dispose(s.nextId)]
  {
  }

  /**
   * A dial that throws: after the dial only the thrown message is reported,
   * and the client the slot held before, if any, is disposed; the shell is
   * never requested.
   */
  lemma DialFailure(s: State, p: Profile, key: FileRead, message: string, shellRequest: Outcome)
    requires BuildConfig(p, key).Ok?
    ensures var t := Connect(s, p, key, Failed(message), shellRequest);
            && t.effects == [Dial(s.nextId, BuildConfig(p, key).value), Notify("ssh-error", message)]
                            + (if s.currentSSH.Some? then [Dispose(s.currentSSH.value)] else [])
            && t.state.currentSSH == None && t.state.currentShell == None
            && t.state.shells == s.shells
  {
  }

  /**
   * The catch block disposes whatever client the slot holds: a connect that
   * fails while another session is held disposes that session's client.
   */
  lemma FailedConnectDisposesHeldClient(s: State, p: Profile, key: FileRead, message: string)
    requires s.currentSSH.Some? && BuildConfig(p, key).Ok?
    ensures Dispose(s.currentSSH.value) in Connect(s, p, key, Failed(message), Done).effects
  {
    var t := Connect(s, p, key, Failed(message), Done);
    assert t.effects[2] == Dispose(s.currentSSH.value);
  }

  // ---------------------------------------------------------------------
  // Close, window close and input.

  /** Closing an open shell reports `ssh-disconnected` and empties both slots. */
  lemma ShellCloseNotice(s: State, shell: nat, stillConnected: bool)
    requires shell in s.shells
    ensures var t := ShellClose(s, shell, stillConnected);
            && t.effects[0] == Notify("ssh-disconnected", ClosedMessage)
            && t.state.currentSSH == None && t.state.currentShell == None
            && (Dispose(s.shells[shell]) in t.effects <==> stillConnected)
  {
  }

  /** The window `closed` listeners are idempotent: any number of them act like one. */
  lemma {:induction false} ClosedListenersIdempotent(s: State, n: nat)
    requires n >= 1
    ensures RunClosedListeners(s, n) == ClosedListener(s)
  {
    if n > 1 {
      ClosedListenersIdempotent(s, n - 1);
    }
  }

  /** Input reaches the backend only through a held, writable shell, which is an open one. */
  lemma InputRouting(s: State, data: string, writable: bool)
    requires Inv(s)
    ensures var t := Input(s, data, writable);
            && t.state == s
            && (t.effects != [] <==> s.currentShell.Some? && writable)
            && (t.effects != [] ==> t.effects == [Write(s.currentShell.value, data)] && s.currentShell.value in s.shells)
  {
  }

  /** Closing an earlier tab's shell clears the slots of a later session too, so its input is dropped. */
  lemma EarlierCloseDropsLaterInput(s: State, earlier: nat, data: string)
    requires Inv(s) && earlier in s.shells && s.currentShell.Some? && s.currentShell.value != earlier
    ensures Input(ShellClose(s, earlier, true).state, data, true).effects == []
  {
  }

  // ---------------------------------------------------------------------
  // Trace properties.

  lemma StepKeepsInv(s: State, e: Event)
    requires Inv(s)
    ensures Inv(Step(s, e).state)
    ensures Step(s, e).state.nextId >= s.nextId
  {
    match e
    case WindowClosedEvent =>
      if s.closedListeners >= 1 {
        ClosedListenersIdempotent(s, s.closedListeners);
      }
    case _ =>
  }

  lemma {:induction false} RunKeepsInv(s: State, events: seq<Event>)
    requires Inv(s)
    ensures Inv(Run(s, events).state)
    decreases |events|
  {
    if events != [] {
      StepKeepsInv(s, events[0]);
      RunKeepsInv(Step(s, events[0]).state, events[1..]);
    }
  }

  /** One event never writes to a shell that is not open. */
  lemma StepWritesOpenShells(s: State, e: Event, shell: nat)
    requires Inv(s) && shell !in s.shells && shell < s.nextId
    ensures forall d :: Write(shell, d) !in Step(s, e).effects
    ensures shell !in Step(s, e).state.shells
  {
    match e
    case WindowClosedEvent =>
      if s.closedListeners >= 1 {
        ClosedListenersIdempotent(s, s.closedListeners);
      }
    case _ =>
  }

  /**
   * Once a shell is closed, no later event writes to it: a closed shell is
   * never reopened and input only ever goes to an open shell.
   */
  lemma {:induction false} NoWriteAfterClose(s: State, events: seq<Event>, shell: nat)
    requires Inv(s) && shell !in s.shells && shell < s.nextId
    ensures forall d :: Write(shell, d) !in Run(s, events).effects
    decreases |events|
  {
    if events != [] {
      var t := Step(s, events[0]);
      StepWritesOpenShells(s, events[0], shell);
      StepKeepsInv(s, events[0]);
      NoWriteAfterClose(t.state, events[1..], shell);
    }
  }

  /** Closing an open shell and then running any trace: that shell is never written again. */
  lemma ClosedShellNeverWritten(s: State, shell: nat, stillConnected: bool, later: seq<Event>)
    requires Inv(s) && shell in s.shells
    ensures forall d :: Write(shell, d) !in Run(s, [ShellClosed(shell, stillConnected)] + later).effects
  {
    var events := [ShellClosed(shell, stillConnected)] + later;
    assert events[0] == ShellClosed(shell, stillConnected) && events[1..] == later;
    var t := Step(s, events[0]);
    StepKeepsInv(s, events[0]);
    NoWriteAfterClose(t.state, later, shell);
  }

  // ---------------------------------------------------------------------
  // The handlers over the two mutable slots.

  /** The state of the main window's handlers (the closure of `createWindow`). */
  class MainProcess {
    var currentSSH: Option<nat>
    var currentShell: Option<nat>
    var shells: map<nat, nat>
    var closedListeners: nat
    var nextId: nat
    /** Everything sent and every library call made so far, in order. */
    var log: seq<Effect>

    function Abs(): State
      reads this
    {
      State(currentSSH, currentShell, shells, closedListeners, nextId)
    }

    constructor ()
      ensures Abs() == Initial() && log == []
    {
      currentSSH, currentShell := None, None;
      shells, closedListeners, nextId := map[], 0, 0;
      log := [];
    }

    /** The catch block of `connect-ssh`. */
    method Catch(message: string)
      modifies this
      ensures Abs() == CatchBlock(old(Abs()), message).state
      ensures log == old(log) + CatchBlock(old(Abs()), message).effects
    {
      log := log + [Notify("ssh-error", message)];
      if currentSSH.Some? {
        log := log + [Dispose(currentSSH.value)];
        currentSSH := None;
      }
      currentShell := None;
    }

    /** `connect-ssh`, with the key-file read, the dial and the shell request given as their outcomes. */
    method ConnectSsh(p: Profile, key: FileRead, dial: Outcome, shellRequest: Outcome)
      modifies this
      ensures Abs() == Connect(old(Abs()), p, key, dial, shellRequest).state
      ensures log == old(log) + Connect(old(Abs()), p, key, dial, shellRequest).effects
      ensures Inv(old(Abs())) ==> Inv(Abs())
    {
      ghost var s0 := Abs();
      var ssh := nextId;
      nextId := nextId + 1;
      var config := BuildConfig(p, key);
      if config.Err? {
        Catch(config.message);
      } else {
        Dial(ssh, config.value, dial, shellRequest);
      }
      if Inv(s0) {
        StepKeepsInv(s0, Event.ConnectSsh(p, key, dial, shellRequest));
      }
    }

    /** The dial, the `ssh-connected` notice and the shell request of `connect-ssh`. */
    method Dial(ssh: nat, params: SshParams, dial: Outcome, shellRequest: Outcome)
      modifies this
      ensures Abs() == Dialled(old(Abs()), ssh, params, dial, shellRequest).state
      ensures log == old(log) + Dialled(old(Abs()), ssh, params, dial, shellRequest).effects
    {
      log := log + [Effect.Dial(ssh, params)];
      if dial.Failed? {
        Catch(dial.message);
      } else {
        currentSSH := Some(ssh);
        log := log + [Notify("ssh-connected", ConnectedMessage), RequestShell(ssh)];
        if shellRequest.Failed? {
          Catch(shellRequest.message);
        } else {
          var shell := nextId;
          nextId := nextId + 1;
          currentShell := Some(shell);
          shells := shells[shell := ssh];
          closedListeners := closedListeners + 1;
        }
      }
    }

    /** A shell's `data` event. */
    method OnShellData(shell: nat, data: string)
      modifies this
      ensures Abs() == old(Abs())
      ensures log == old(log) + ShellData(old(Abs()), shell, data).effects
    {
      if shell in shells {
        log := log + [Notify("ssh-output", data)];
      }
    }

    /** A shell's `close` event; `stillConnected` is what `ssh.isConnected()` reports. */
    method OnShellClose(shell: nat, stillConnected: bool)
      modifies this
      ensures Abs() == ShellClose(old(Abs()), shell, stillConnected).state
      ensures log == old(log) + ShellClose(old(Abs()), shell, stillConnected).effects
      ensures Inv(old(Abs())) ==> Inv(Abs())
    {
      ghost var s0 := Abs();
      if shell in shells {
        var client := shells[shell];
        log := log + [Notify("ssh-disconnected", ClosedMessage)];
        currentSSH := None;
        currentShell := None;
        if stillConnected {
          log := log + [Dispose(client)];
        }
        shells := shells - {shell};
      }
      if Inv(s0) {
        StepKeepsInv(s0, ShellClosed(shell, stillConnected));
      }
    }

    /** The window's `closed` event: each registered listener runs in turn. */
    method OnWindowClosed()
      modifies this
      ensures Abs() == WindowClosed(old(Abs())).state
      ensures log == old(log) + WindowClosed(old(Abs())).effects
    {
      ghost var s0 := Abs();
      var i := 0;
      while i < closedListeners
        invariant 0 <= i <= closedListeners == s0.closedListeners
        invariant Abs() == RunClosedListeners(s0, i).state
        invariant log == old(log) + RunClosedListeners(s0, i).effects
      {
        if currentSSH.Some? {
          log := log + [Dispose(currentSSH.value)];
          currentSSH := None;
        }
        currentShell := None;
        i := i + 1;
      }
    }

    /** `ssh-input`; `writable` is the held shell's `writable` flag. */
    method OnSshInput(data: string, writable: bool)
      modifies this
      ensures Abs() == old(Abs())
      ensures log == old(log) + Input(old(Abs()), data, writable).effects
    {
      if currentShell.Some? && writable {
        log := log + [Write(currentShell.value, data)];
      }
    }
  }
}
