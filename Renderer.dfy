/**
 * The renderer component as a stateful object: one field per state hook,
 * the IPC cleanup array, and the handlers that update them in sequence. The
 * listener effect unsubscribes every earlier listener and subscribes four
 * new ones for the active tab.
 */
module Renderer {
  import opened Wrappers
  import opened Profiles
  import opened Preload
  import opened Tabs

  /** The callbacks the listener effect registers, each closing over the active tab id of its render. */
  datatype Handler =
    | ConnectedHandler(tabId: Option<string>)
    | DisconnectedHandler(tabId: Option<string>)
    | OutputHandler(tabId: Option<string>)
    | ErrorHandler(tabId: Option<string>)

  /** The first argument a callback receives, as a string. */
  function Arg(args: seq<string>): string {
    if |args| > 0 then args[0] else "undefined"
  }

  /** The tab list after one callback ran; output only reaches the terminal, which is not modelled. */
  function ApplyCall(tabs: seq<Tab>, c: Call<Handler>): seq<Tab> {
    match c.func
    case ConnectedHandler(tabId) => SetStatus(tabs, tabId, Arg(c.args))
    case DisconnectedHandler(tabId) => SetStatus(tabs, tabId, Arg(c.args))
    case OutputHandler(_) => tabs
    case ErrorHandler(tabId) => SetStatus(tabs, tabId, ErrorPrefix + Arg(c.args))
  }

  /**
   * The callbacks subscribed for the active tab are the component's
   * notification handlers: a notice or an error with message `m` leaves the
   * tab list `OnNotice` and `OnError` give, and output leaves it alone.
   */
  lemma HandlersAreNotifications(u: Ui, m: string)
    ensures ApplyCall(u.tabs, Call(ConnectedHandler(u.active), [m])) == OnNotice(u, m).tabs
    ensures ApplyCall(u.tabs, Call(DisconnectedHandler(u.active), [m])) == OnNotice(u, m).tabs
    ensures ApplyCall(u.tabs, Call(ErrorHandler(u.active), [m])) == OnError(u, m).tabs
    ensures ApplyCall(u.tabs, Call(OutputHandler(u.active), [m])) == u.tabs
  {
  }

  /** The tab list after the callbacks ran in order. */
  function ApplyCalls(tabs: seq<Tab>, cs: seq<Call<Handler>>): seq<Tab>
    decreases |cs|
  {
    if cs == [] then tabs else ApplyCalls(ApplyCall(tabs, cs[0]), cs[1..])
  }

  /** The four subscriptions the listener effect makes for `active`, numbered from `n`. */
  function Subscriptions(active: Option<string>, n: nat): seq<Listener<Handler>> {
    [Listener("ssh-connected", n, ConnectedHandler(active)),
     Listener("ssh-disconnected", n + 1, DisconnectedHandler(active)),
     Listener("ssh-output", n + 2, OutputHandler(active)),
     Listener("ssh-error", n + 3, ErrorHandler(active))]
  }

  /** The cleanups that remove exactly the listeners `ls`, in order. */
  function CleanupsOf<F>(ls: seq<Listener<F>>): (r: seq<Cleanup>)
    ensures |r| == |ls|
    ensures forall i :: 0 <= i < |ls| ==> r[i] == RemoveListener(ls[i].channel, ls[i].subscription)
  {
    if ls == [] then [] else [RemoveListener(ls[0].channel, ls[0].subscription)] + CleanupsOf(ls[1..])
  }

  /** Removing the oldest listener by its own cleanup leaves the rest. */
  lemma RemoveOldest<F>(ls: seq<Listener<F>>, next: nat)
    requires ls != [] && UniqueSubscriptions(ls, next)
    ensures RemoveLast(ls, ls[0].channel, ls[0].subscription) == ls[1..]
  {
    forall i | 0 <= i < |ls[1..]| ensures ls[1..][i].subscription != ls[0].subscription {
      assert ls[1..][i] == ls[i + 1];
    }
    RemoveSubscribed([], ls[0], ls[1..]);
    assert [] + [ls[0]] + ls[1..] == ls;
  }

  /** Running the cleanups of a table, oldest first, removes every listener in it. */
  lemma {:induction false} CleanupsEmptyTable<F>(ls: seq<Listener<F>>, next: nat)
    requires UniqueSubscriptions(ls, next)
    ensures RunCleanups(ls, CleanupsOf(ls)) == []
    decreases |ls|
  {
    if ls != [] {
      RemoveOldest(ls, next);
      assert CleanupsOf(ls)[1..] == CleanupsOf(ls[1..]);
      CleanupsEmptyTable(ls[1..], next);
    }
  }

  /**
   * A notification that arrives while the listeners of `active` are
   * subscribed sets that tab's status as the handlers say: the message for
   * `ssh-connected` and `ssh-disconnected`, the prefixed message for
   * `ssh-error`, nothing for `ssh-output`.
   */
  lemma NotificationUpdatesStatus(tabs: seq<Tab>, active: Option<string>, n: nat, channel: string, message: string)
    ensures var after := ApplyCalls(tabs, Dispatch(Subscriptions(active, n), channel, (), [message]));
            && (channel == "ssh-connected" || channel == "ssh-disconnected" ==> after == SetStatus(tabs, active, message))
            && (channel == "ssh-error" ==> after == SetStatus(tabs, active, ErrorPrefix + message))
            && (channel !in {"ssh-connected", "ssh-disconnected", "ssh-error"} ==> after == tabs)
  {
    if channel == "ssh-connected" || channel == "ssh-disconnected" {
      NoticeDelivered(tabs, active, n, channel, message);
    } else if channel == "ssh-error" {
      ErrorDelivered(tabs, active, n, message);
    } else {
      OthersIgnored(tabs, active, n, channel, message);
    }
  }

  /** Proof step: the connected and disconnected cases. */
  lemma NoticeDelivered(tabs: seq<Tab>, active: Option<string>, n: nat, channel: string, message: string)
    requires channel == "ssh-connected" || channel == "ssh-disconnected"
    ensures ApplyCalls(tabs, Dispatch(Subscriptions(active, n), channel, (), [message])) == SetStatus(tabs, active, message)
  {
    var ls := Subscriptions(active, n);
    SubscriptionsOnChannel(active, n, channel);
    assert Arg([message]) == message;
    if channel == "ssh-connected" {
      DispatchOne(tabs, ls, channel, [message], Listener(channel, n, ConnectedHandler(active)));
    } else {
      DispatchOne(tabs, ls, channel, [message], Listener(channel, n + 1, DisconnectedHandler(active)));
    }
  }

  /** Proof step: the error case. */
  lemma ErrorDelivered(tabs: seq<Tab>, active: Option<string>, n: nat, message: string)
    ensures ApplyCalls(tabs, Dispatch(Subscriptions(active, n), "ssh-error", (), [message]))
            == SetStatus(tabs, active, ErrorPrefix + message)
  {
    var ls := Subscriptions(active, n);
    SubscriptionsOnChannel(active, n, "ssh-error");
    assert Arg([message]) == message;
    DispatchOne(tabs, ls, "ssh-error", [message], Listener("ssh-error", n + 3, ErrorHandler(active)));
  }

  /** Proof step: output and unknown channels leave the tabs alone. */
  lemma OthersIgnored(tabs: seq<Tab>, active: Option<string>, n: nat, channel: string, message: string)
    requires channel !in {"ssh-connected", "ssh-disconnected", "ssh-error"}
    ensures ApplyCalls(tabs, Dispatch(Subscriptions(active, n), channel, (), [message])) == tabs
  {
    var ls := Subscriptions(active, n);
    SubscriptionsOnChannel(active, n, channel);
    if channel == "ssh-output" {
      DispatchOne(tabs, ls, channel, [message], Listener(channel, n + 2, OutputHandler(active)));
    } else {
      assert Dispatch(ls, channel, (), [message]) == [];
    }
  }

  /** Proof step: an emit that reaches one listener runs its callback once. */
  lemma DispatchOne(tabs: seq<Tab>, ls: seq<Listener<Handler>>, channel: string, args: seq<string>, x: Listener<Handler>)
    requires OnChannel(ls, channel) == [x]
    ensures ApplyCalls(tabs, Dispatch(ls, channel, (), args)) == ApplyCall(tabs, Call(x.func, args))
  {
    var cs := Dispatch(ls, channel, (), args);
    assert cs == [Call(x.func, args)];
    assert cs[1..] == [];
  }

  /** Proof step: each of the four channels reaches exactly its own subscription. */
  lemma SubscriptionsOnChannel(active: Option<string>, n: nat, channel: string)
    ensures var ls := Subscriptions(active, n);
            OnChannel(ls, channel) ==
              if channel == "ssh-connected" then [ls[0]]
              else if channel == "ssh-disconnected" then [ls[1]]
              else if channel == "ssh-output" then [ls[2]]
              else if channel == "ssh-error" then [ls[3]]
              else []
  {
    var ls := Subscriptions(active, n);
    assert ls == [ls[0]] + ([ls[1]] + ([ls[2]] + [ls[3]]));
    OnChannelCons(ls[0], [ls[1]] + ([ls[2]] + [ls[3]]), channel);
    OnChannelCons(ls[1], [ls[2]] + [ls[3]], channel);
    OnChannelCons(ls[2], [ls[3]], channel);
    OnChannelCons(ls[3], [], channel);
    assert [ls[3]] + [] == [ls[3]];
  }

  /** Proof step: the first entry of a table is dispatched before the rest. */
  lemma OnChannelCons<F>(x: Listener<F>, rest: seq<Listener<F>>, channel: string)
    ensures OnChannel([x] + rest, channel) == (if x.channel == channel then [x] else []) + OnChannel(rest, channel)
  {
    OnChannelAppend([x], rest, channel);
    assert [x][1..] == [];
  }

  /** The renderer component's state. */
  class App {
    var connections: seq<Profile>
    var selectedConnectionId: Option<string>
    var isEditing: bool
    var form: Form
    var sidebarWidth: int
    var isResizing: bool
    var tabs: seq<Tab>
    var activeTabId: Option<string>
    /** `ipcCleanupFunctions.current`. */
    var cleanups: seq<Cleanup>
    /** The preload bridge's listener table. */
    const bridge: IpcRenderer<Handler>

    function Abs(): Ui
      reads this
    {
      Ui(connections, selectedConnectionId, isEditing, form, tabs, activeTabId, sidebarWidth, isResizing)
    }

    /** The cleanup array names exactly the listeners in the bridge's table, oldest first. */
    ghost predicate Valid()
      reads this, bridge
    {
      bridge.Valid() && cleanups == CleanupsOf(bridge.listeners)
    }

    constructor (bridge: IpcRenderer<Handler>)
      requires bridge.Valid() && bridge.listeners == []
      ensures Valid() && Abs() == InitialUi() && this.bridge == bridge
    {
      this.bridge := bridge;
      connections, selectedConnectionId, isEditing, form := [], None, false, InitialValues;
      sidebarWidth, isResizing := InitialSidebarWidth, false;
      tabs, activeTabId := [], None;
      cleanups := [];
    }

    /**
     * The listener effect, run after each change of the tabs or the active
     * tab: every earlier cleanup runs, the array is emptied, and if the
     * active tab exists four listeners are subscribed for it and their
     * cleanups pushed.
     */
    method RefreshIpcListeners()
      requires Valid()
      modifies this`cleanups, bridge
      ensures Valid() && Abs() == old(Abs())
      ensures bridge.listeners ==
                if FindTab(tabs, activeTabId).Some? then Subscriptions(activeTabId, old(bridge.nextSubscription)) else []
    {
      Unsubscribe();
      SubscribeActive();
    }

    /** The first half of the effect: every cleanup runs, oldest first, and the array is emptied. */
    method Unsubscribe()
      requires Valid()
      modifies this`cleanups, bridge
      ensures bridge.Valid() && bridge.listeners == RunCleanups(old(bridge.listeners), old(cleanups))
      ensures bridge.listeners == [] && cleanups == []
      ensures bridge.nextSubscription == old(bridge.nextSubscription)
    {
      ghost var before := bridge.listeners;
      var i := 0;
      while i < |cleanups|
        invariant 0 <= i <= |cleanups| == |before|
        invariant cleanups == CleanupsOf(before)
        invariant bridge.Valid() && bridge.listeners == before[i..]
        invariant RunCleanups(bridge.listeners, cleanups[i..]) == RunCleanups(before, cleanups)
        invariant bridge.nextSubscription == old(bridge.nextSubscription)
      {
        RemoveOldest(before[i..], bridge.nextSubscription);
        assert before[i..][0] == before[i];
        assert cleanups[i..][1..] == cleanups[i + 1..];
        bridge.Clean(cleanups[i]);
        assert before[i..][1..] == before[i + 1..];
        i := i + 1;
      }
      cleanups := [];
    }

    /** The second half: the four listeners of the active tab, if it exists, and their cleanups. */
    method SubscribeActive()
      requires bridge.Valid() && bridge.listeners == [] && cleanups == []
      modifies this`cleanups, bridge
      ensures Valid()
      ensures bridge.listeners ==
                if FindTab(tabs, activeTabId).Some? then Subscriptions(activeTabId, old(bridge.nextSubscription)) else []
    {
      if FindTab(tabs, activeTabId).Some? {
        var n := bridge.nextSubscription;
        var connected := bridge.Receive("ssh-connected", ConnectedHandler(activeTabId));
        var disconnected := bridge.Receive("ssh-disconnected", DisconnectedHandler(activeTabId));
        var output := bridge.Receive("ssh-output", OutputHandler(activeTabId));
        var error := bridge.Receive("ssh-error", ErrorHandler(activeTabId));
        cleanups := [connected, disconnected, output, error];
        assert bridge.listeners == Subscriptions(activeTabId, n);
      }
    }

    /** The main process sends a notification: every subscribed callback runs, in order. */
    method Deliver(channel: string, args: seq<string>)
      requires Valid()
      modifies this`tabs
      ensures Valid()
      ensures tabs == ApplyCalls(old(tabs), Dispatch(bridge.listeners, channel, (), args))
    {
      var calls := Dispatch(bridge.listeners, channel, (), args);
      var i := 0;
      while i < |calls|
        invariant 0 <= i <= |calls|
        invariant ApplyCalls(tabs, calls[i..]) == ApplyCalls(old(tabs), calls)
      {
        assert calls[i..][1..] == calls[i + 1..];
        tabs := ApplyCall(tabs, calls[i]);
        i := i + 1;
      }
      assert calls[i..] == [];
    }

    /** The "connect to selected server" button; `now` is `Date.now()`. */
    method ConnectToSelectedClicked(now: nat)
      modifies this
      ensures Abs() == ConnectToSelected(old(Abs()), now)
      ensures cleanups == old(cleanups)
    {
      if !Present(selectedConnectionId) {
        return;
      }
      var k := FindConnection(connections, selectedConnectionId);
      if k.None? {
        return;
      }
      var connection := connections[k.value];
      var existing := FindTabFor(tabs, connection.id);
      if existing.Some? {
        activeTabId := Some(tabs[existing.value].id);
      } else {
        tabs := tabs + [NewTab(connection, now)];
        activeTabId := Some(TabIdFor(now));
      }
    }

    /** A tab's close button. */
    method RemoveTabClicked(id: string)
      modifies this
      ensures Abs() == RemoveTab(old(Abs()), id)
      ensures cleanups == old(cleanups)
    {
      var updated := WithoutTab(tabs, id);
      if activeTabId == Some(id) {
        activeTabId := if |updated| > 0 then Some(updated[0].id) else None;
      }
      tabs := updated;
    }

    /** A tab's label. */
    method ActivateTabClicked(id: string)
      modifies this
      ensures Abs() == ActivateTab(old(Abs()), id)
      ensures cleanups == old(cleanups)
    {
      activeTabId := Some(id);
    }

    /** The form's cancel button, and the end of a save or of deleting the selected connection. */
    method ResetFormClicked()
      modifies this
      ensures Abs() == ResetForm(old(Abs()))
      ensures cleanups == old(cleanups)
    {
      form := InitialValues;
      selectedConnectionId := None;
      isEditing := false;
    }

    /** A list entry's select or edit button. */
    method SelectConnectionClicked(c: Profile)
      modifies this
      ensures Abs() == SelectConnection(old(Abs()), c)
      ensures cleanups == old(cleanups)
    {
      form := Filled(c);
      selectedConnectionId := if Present(c.id) then c.id else None;
      isEditing := true;
    }

    /** A list entry's delete button, with the main process's answer `reply`. */
    method DeleteConnectionClicked(id: string, reply: Result<seq<Profile>>)
      modifies this
      ensures Abs() == DeleteConnection(old(Abs()), id, reply)
      ensures cleanups == old(cleanups)
    {
      if reply.Err? {
        return;
      }
      connections := reply.value;
      if selectedConnectionId == Some(id) {
        ResetFormClicked();
      }
      // The active tab is looked up in the list as it was before the filter.
      var activeTab := FindTab(tabs, activeTabId);
      var clear := Present(activeTabId) && activeTab.Some? && tabs[activeTab.value].connectionId == Some(id);
      tabs := WithoutConnection(tabs, Some(id));
      if clear {
        activeTabId := None;
      }
    }

    /** The form's submit: the request sent on `save-connection`, then the answer `reply` applied. */
    method SaveConnectionSubmitted(values: Profile, reply: Result<seq<Profile>>) returns (request: Profile)
      modifies this
      ensures request == SaveRequest(old(Abs()), values)
      ensures Abs() == SaveConnection(old(Abs()), reply)
      ensures cleanups == old(cleanups)
    {
      request := values.(id := selectedConnectionId);
      if reply.Ok? {
        connections := reply.value;
        ResetFormClicked();
      }
    }

    /** The mount effect, with the answer of `get-connections`. */
    method LoadConnectionsOnMount(reply: Result<seq<Profile>>)
      modifies this
      ensures Abs() == LoadConnections(old(Abs()), reply)
      ensures cleanups == old(cleanups)
    {
      if reply.Ok? {
        connections := reply.value;
      }
    }

    /** A mouse-down on the resize handle. */
    method StartResizing()
      modifies this
      ensures Abs() == old(Abs()).(resizing := true)
      ensures cleanups == old(cleanups)
    {
      isResizing := true;
    }

    /** A mouse-up after a drag. */
    method StopResizing()
      modifies this
      ensures Abs() == old(Abs()).(resizing := false)
      ensures cleanups == old(cleanups)
    {
      isResizing := false;
    }

    /** A mouse move at `clientX` in a window `innerWidth` wide. */
    method MouseMoved(clientX: int, innerWidth: int)
      modifies this
      ensures Abs() == old(Abs()).(sidebarWidth := ResizeSidebar(old(sidebarWidth), isResizing, clientX, innerWidth))
      ensures cleanups == old(cleanups)
    {
      if isResizing && clientX > 100 && clientX < innerWidth - 200 {
        sidebarWidth := clientX;
      }
    }
  }
}
