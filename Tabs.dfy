/**
 * The renderer's tab bookkeeping and form state: the tab list and the active
 * tab, the selected connection, the notifications' status updates and the
 * sidebar drag bound. Each handler is a function from the old view state to
 * the new one.
 */
module Tabs {
  import opened Wrappers
  import opened Profiles
  import opened SshConfig

  /** A terminal tab; the terminal, its DOM node and its fit add-on are not part of the model. */
  datatype Tab = Tab(id: string, name: string, connectionId: Option<string>, status: string)

  /** What the connection form shows: its initial values (port 22) or a profile's fields. */
  datatype Form = InitialValues | Filled(values: Profile)

  /** The component's state hooks. */
  datatype Ui = Ui(
    connections: seq<Profile>,
    selected: Option<string>,
    editing: bool,
    form: Form,
    tabs: seq<Tab>,
    active: Option<string>,
    sidebarWidth: int,
    resizing: bool)

  /** "未连接": the status of a tab that has not connected yet. */
  const NotConnected := "\U{672A}\U{8FDE}\U{63A5}"
  /** "错误: ": the prefix of an error status. */
  const ErrorPrefix := "\U{9519}\U{8BEF}: "
  const InitialSidebarWidth := 300

  /** The state on mount, before the connections are loaded. */
  function InitialUi(): Ui {
    Ui([], None, false, InitialValues, [], None, InitialSidebarWidth, false)
  }

  // ---------------------------------------------------------------------
  // Tab ids: "tab-" followed by the clock in decimal.

  function Digit(d: nat): char
    requires d < 10
  {
    "0123456789"[d]
  }

  /** The decimal numeral of `n`, as JavaScript prints a non-negative integer. */
  function Decimal(n: nat): (r: string)
    ensures |r| >= 1
    ensures n < 10 <==> |r| == 1
  {
    if n < 10 then [Digit(n)] else Decimal(n / 10) + [Digit(n % 10)]
  }

  /** Distinct numbers have distinct numerals. */
  lemma {:induction false} DecimalInjective(a: nat, b: nat)
    requires Decimal(a) == Decimal(b)
    ensures a == b
  {
    if a >= 10 && b >= 10 {
      var da, db := Decimal(a), Decimal(b);
      assert da[|da| - 1] == Digit(a % 10) && db[|db| - 1] == Digit(b % 10);
      assert a % 10 == b % 10;
      assert da[..|da| - 1] == Decimal(a / 10) && db[..|db| - 1] == Decimal(b / 10);
      DecimalInjective(a / 10, b / 10);
    }
  }

  /** The id `addTab` gives a tab created at time `now` (`tab-${Date.now()}`). */
  function TabIdFor(now: nat): string {
    "tab-" + Decimal(now)
  }

  /** Tabs opened at different milliseconds have different ids. */
  lemma TabIdsDistinct(a: nat, b: nat)
    requires a != b
    ensures TabIdFor(a) != TabIdFor(b)
  {
    if TabIdFor(a) == TabIdFor(b) {
      assert TabIdFor(a)[4..] == Decimal(a) && TabIdFor(b)[4..] == Decimal(b);
      DecimalInjective(a, b);
    }
  }

  // ---------------------------------------------------------------------
  // Lookups (`find`: the first match).

  /** The position of the first element satisfying `p`, as `findIndex` gives it. */
  function FirstIndex<T>(s: seq<T>, p: T -> bool): (r: Option<nat>)
    ensures r.Some? ==> r.value < |s| && p(s[r.value])
    ensures r.Some? ==> forall k :: 0 <= k < r.value ==> !p(s[k])
    ensures r.None? <==> forall k :: 0 <= k < |s| ==> !p(s[k])
  {
    if s == [] then None
    else if p(s[0]) then Some(0)
    else match FirstIndex(s[1..], p)
      case None => None
      case Some(k) => Some(k + 1)
  }

  /** The position of the first tab whose id is `id`. */
  function FindTab(tabs: seq<Tab>, id: Option<string>): (r: Option<nat>)
    ensures r.Some? ==> r.value < |tabs| && Some(tabs[r.value].id) == id
    ensures r.Some? ==> forall k :: 0 <= k < r.value ==> Some(tabs[k].id) != id
    ensures r.None? <==> forall k :: 0 <= k < |tabs| ==> Some(tabs[k].id) != id
  {
    FirstIndex(tabs, (t: Tab) => Some(t.id) == id)
  }

  /** The position of the first tab opened for the connection `connectionId`. */
  function FindTabFor(tabs: seq<Tab>, connectionId: Option<string>): (r: Option<nat>)
    ensures r.Some? ==> r.value < |tabs| && tabs[r.value].connectionId == connectionId
    ensures r.Some? ==> forall k :: 0 <= k < r.value ==> tabs[k].connectionId != connectionId
    ensures r.None? <==> forall k :: 0 <= k < |tabs| ==> tabs[k].connectionId != connectionId
  {
    FirstIndex(tabs, (t: Tab) => t.connectionId == connectionId)
  }

  /** The position of the first connection whose id is `id`. */
  function FindConnection(cs: seq<Profile>, id: Option<string>): (r: Option<nat>)
    ensures r.Some? ==> r.value < |cs| && cs[r.value].id == id
    ensures r.Some? ==> forall k :: 0 <= k < r.value ==> cs[k].id != id
    ensures r.None? <==> forall k :: 0 <= k < |cs| ==> cs[k].id != id
  {
    FirstIndex(cs, (c: Profile) => c.id == id)
  }

  /** Some tab carries the id `id`. */
  ghost predicate HasTab(tabs: seq<Tab>, id: string) {
    exists k :: 0 <= k < |tabs| && tabs[k].id == id
  }

  /** Tab ids are never empty, and the active tab id, when set, names a tab that exists. */
  ghost predicate ActiveValid(u: Ui) {
    (forall k :: 0 <= k < |u.tabs| ==> u.tabs[k].id != "") &&
    (u.active.Some? ==> HasTab(u.tabs, u.active.value))
  }

  // ---------------------------------------------------------------------
  // Filters and maps over the tab list.

  /** The tabs other than those with id `id`, in order (`filter(tab => tab.id !== tabId)`). */
  function WithoutTab(tabs: seq<Tab>, id: string): (r: seq<Tab>)
    ensures |r| <= |tabs|
    ensures forall t :: t in r ==> t in tabs && t.id != id
    ensures forall t :: t in tabs && t.id != id ==> t in r
  {
    if tabs == [] then []
    else
      var rest := WithoutTab(tabs[1..], id);
      assert tabs == [tabs[0]] + tabs[1..];
      if tabs[0].id == id then rest else [tabs[0]] + rest
  }

  /** The tabs not opened for the connection `id`, in order. */
  function WithoutConnection(tabs: seq<Tab>, id: Option<string>): (r: seq<Tab>)
    ensures |r| <= |tabs|
    ensures forall t :: t in r ==> t in tabs && t.connectionId != id
    ensures forall t :: t in tabs && t.connectionId != id ==> t in r
  {
    if tabs == [] then []
    else
      var rest := WithoutConnection(tabs[1..], id);
      assert tabs == [tabs[0]] + tabs[1..];
      if tabs[0].connectionId == id then rest else [tabs[0]] + rest
  }

  /** Filtering by connection distributes over concatenation: the kept tabs stay in order. */
  lemma {:induction false} WithoutConnectionAppend(a: seq<Tab>, b: seq<Tab>, id: Option<string>)
    ensures WithoutConnection(a + b, id) == WithoutConnection(a, id) + WithoutConnection(b, id)
  {
    if a == [] {
      assert a + b == b;
    } else {
      assert (a + b)[1..] == a[1..] + b;
      WithoutConnectionAppend(a[1..], b, id);
    }
  }

  /** Every tab whose id equals `active` gets `status`; every other tab is unchanged. */
  function SetStatus(tabs: seq<Tab>, active: Option<string>, status: string): (r: seq<Tab>)
    ensures |r| == |tabs|
    ensures forall k :: 0 <= k < |tabs| ==>
              r[k] == if Some(tabs[k].id) == active then tabs[k].(status := status) else tabs[k]
  {
    if tabs == [] then []
    else [if Some(tabs[0].id) == active then tabs[0].(status := status) else tabs[0]]
         + SetStatus(tabs[1..], active, status)
  }

  // ---------------------------------------------------------------------
  // The handlers.

  /** The tab `addTab` creates for `c` at time `now`. */
  function NewTab(c: Profile, now: nat): Tab {
    Tab(TabIdFor(now), c.name, c.id, NotConnected)
  }

  /** `addTab`: the new tab appended and made active. */
  function AddTab(u: Ui, c: Profile, now: nat): Ui {
    u.(tabs := u.tabs + [NewTab(c, now)], active := Some(TabIdFor(now)))
  }

  /**
   * `removeTab`: the tabs with that id go; if it was the active one, the
   * first remaining tab becomes active, or none.
   */
  function RemoveTab(u: Ui, id: string): Ui {
    var rest := WithoutTab(u.tabs, id);
    var active := if u.active == Some(id) then (if |rest| > 0 then Some(rest[0].id) else None) else u.active;
    u.(tabs := rest, active := active)
  }

  /** `activateTab`. */
  function ActivateTab(u: Ui, id: string): Ui {
    u.(active := Some(id))
  }

  /** `resetForm`: the form back to its initial values, nothing selected, not editing. */
  function ResetForm(u: Ui): (r: Ui)
    ensures r.selected == None && !r.editing && r.form == InitialValues
    ensures r.tabs == u.tabs && r.active == u.active && r.connections == u.connections
  {
    u.(form := InitialValues, selected := None, editing := false)
  }

  /** `handleSelectConnection` and `handleEditConnection`: the profile in the form, its id selected. */
  function SelectConnection(u: Ui, c: Profile): Ui {
    u.(form := Filled(c), selected := if Present(c.id) then c.id else None, editing := true)
  }

  /**
   * `handleConnectToSelected`: nothing without a (found) selection; the first
   * tab already open for that connection is activated; otherwise a tab is added.
   */
  function ConnectToSelected(u: Ui, now: nat): Ui {
    if !Present(u.selected) then u
    else match FindConnection(u.connections, u.selected)
      case None => u
      case Some(k) =>
        var c := u.connections[k];
        match FindTabFor(u.tabs, c.id)
        case Some(j) => ActivateTab(u, u.tabs[j].id)
        case None => AddTab(u, c, now)
  }

  /** The fields `addTab` sends on `connect-ssh`: no name, no id and no proxy settings. */
  function ConnectRequest(c: Profile): Profile {
    Profile(None, "", c.host, c.username, c.port, c.password, c.privateKeyPath, None, None, None)
  }

  /**
   * `handleDeleteConnection` once `delete-connection` answered with `reply`:
   * the new list, the form reset if `id` was selected, the connection's tabs
   * closed, and the active tab cleared if it was one of them. A rejected
   * call changes nothing.
   */
  function DeleteConnection(u: Ui, id: string, reply: Result<seq<Profile>>): Ui {
    match reply
    case Err(_) => u
    case Ok(updated) =>
      var u1 := u.(connections := updated);
      var u2 := if u.selected == Some(id) then ResetForm(u1) else u1;
      var activeTab := FindTab(u.tabs, u.active);
      var clear := Present(u.active) && activeTab.Some? && u.tabs[activeTab.value].connectionId == Some(id);
      u2.(tabs := WithoutConnection(u.tabs, Some(id)), active := if clear then None else u.active)
  }

  /** The profile `handleSaveConnection` sends: the form's values with the selected id. */
  function SaveRequest(u: Ui, values: Profile): Profile {
    values.(id := u.selected)
  }

  /** `handleSaveConnection` once `save-connection` answered with `reply`. */
  function SaveConnection(u: Ui, reply: Result<seq<Profile>>): Ui {
    match reply
    case Err(_) => u
    case Ok(updated) => ResetForm(u.(connections := updated))
  }

  /** `loadConnections` once `get-connections` answered with `reply`. */
  function LoadConnections(u: Ui, reply: Result<seq<Profile>>): Ui {
    match reply
    case Err(_) => u
    case Ok(list) => u.(connections := list)
  }

  /** The status an `ssh-connected` or `ssh-disconnected` notice sets on the active tab. */
  function OnNotice(u: Ui, message: string): Ui {
    u.(tabs := SetStatus(u.tabs, u.active, message))
  }

  /** The status an `ssh-error` notice sets on the active tab. */
  function OnError(u: Ui, error: string): Ui {
    u.(tabs := SetStatus(u.tabs, u.active, ErrorPrefix + error))
  }

  /**
   * A mouse move: while a drag is on, the sidebar takes the pointer's x when
   * it lies strictly between 100 and 200 short of the window's width.
   */
  function ResizeSidebar(width: int, resizing: bool, clientX: int, innerWidth: int): (r: int)
    ensures r == width || (100 < r < innerWidth - 200)
    ensures r != width ==> resizing && r == clientX
    ensures resizing && 100 < clientX < innerWidth - 200 ==> r == clientX
  {
    if resizing && clientX > 100 && clientX < innerWidth - 200 then clientX else width
  }

  // ---------------------------------------------------------------------
  // Properties.

  /** `addTab` appends exactly one unconnected tab for the connection and activates it. */
  lemma AddTabAppendsOne(u: Ui, c: Profile, now: nat)
    ensures var r := AddTab(u, c, now);
            && |r.tabs| == |u.tabs| + 1 && r.tabs[..|u.tabs|] == u.tabs
            && r.tabs[|u.tabs|].connectionId == c.id && r.tabs[|u.tabs|].name == c.name
            && r.tabs[|u.tabs|].status == NotConnected
            && r.active == Some(r.tabs[|u.tabs|].id)
            && (ActiveValid(u) ==> ActiveValid(r))
  {
    var r := AddTab(u, c, now);
    assert r.tabs[|u.tabs|].id == TabIdFor(now);
  }

  /** `removeTab` closes exactly the tabs with that id and keeps the active tab valid. */
  lemma RemoveTabSpec(u: Ui, id: string)
    requires ActiveValid(u)
    ensures var r := RemoveTab(u, id);
            && (forall t :: t in r.tabs <==> t in u.tabs && t.id != id)
            && (u.active == Some(id) ==> r.active == (if r.tabs == [] then None else Some(r.tabs[0].id)))
            && (u.active != Some(id) ==> r.active == u.active)
            && ActiveValid(r)
  {
    var r := RemoveTab(u, id);
    if r.active.Some? {
      if u.active == Some(id) {
        assert r.tabs[0].id == r.active.value;
      } else {
        var k :| 0 <= k < |u.tabs| && u.tabs[k].id == u.active.value;
        assert u.tabs[k] in r.tabs;
        var j :| 0 <= j < |r.tabs| && r.tabs[j] == u.tabs[k];
      }
    }
  }

  /** Removing the id of a tab just added gives back the tab list, with the first tab active. */
  lemma AddThenRemove(u: Ui, c: Profile, now: nat)
    requires !HasTab(u.tabs, TabIdFor(now))
    ensures var r := RemoveTab(AddTab(u, c, now), TabIdFor(now));
            r.tabs == u.tabs && r.active == (if u.tabs == [] then None else Some(u.tabs[0].id))
  {
    WithoutAbsentTab(u.tabs, TabIdFor(now));
    WithoutTabAppend(u.tabs, [NewTab(c, now)], TabIdFor(now));
  }

  lemma {:induction false} WithoutAbsentTab(tabs: seq<Tab>, id: string)
    requires !HasTab(tabs, id)
    ensures WithoutTab(tabs, id) == tabs
  {
    if tabs != [] {
      assert tabs[0].id != id;
      WithoutAbsentTab(tabs[1..], id);
      assert tabs == [tabs[0]] + tabs[1..];
    }
  }

  lemma {:induction false} WithoutTabAppend(a: seq<Tab>, b: seq<Tab>, id: string)
    ensures WithoutTab(a + b, id) == WithoutTab(a, id) + WithoutTab(b, id)
  {
    if a == [] {
      assert a + b == b;
    } else {
      assert (a + b)[1..] == a[1..] + b;
      WithoutTabAppend(a[1..], b, id);
    }
  }

  /** With no selection, or a selection that is not in the list, nothing changes. */
  lemma ConnectWithoutSelection(u: Ui, now: nat)
    requires !Present(u.selected) || FindConnection(u.connections, u.selected).None?
    ensures ConnectToSelected(u, now) == u
  {
  }

  /** A connection that already has a tab: its first tab is activated and no tab is added. */
  lemma ConnectReusesTab(u: Ui, now: nat, k: nat)
    requires Present(u.selected) && FindConnection(u.connections, u.selected) == Some(k)
    requires !FindTabFor(u.tabs, u.connections[k].id).None?
    ensures var r := ConnectToSelected(u, now);
            && r.tabs == u.tabs
            && r.active.Some? && HasTab(u.tabs, r.active.value)
            && exists j :: 0 <= j < |u.tabs| && u.tabs[j].id == r.active.value && u.tabs[j].connectionId == u.selected
    ensures ConnectToSelected(u, now).active == Some(u.tabs[FindTabFor(u.tabs, u.selected).value].id)
  {
    var j := FindTabFor(u.tabs, u.connections[k].id).value;
    assert u.tabs[j].id == ConnectToSelected(u, now).active.value;
  }

  /** A selected connection without a tab: exactly one tab is added for it, and made active. */
  lemma ConnectAddsTab(u: Ui, now: nat, k: nat)
    requires Present(u.selected) && FindConnection(u.connections, u.selected) == Some(k)
    requires FindTabFor(u.tabs, u.connections[k].id).None?
    ensures var r := ConnectToSelected(u, now);
            && r == AddTab(u, u.connections[k], now)
            && |r.tabs| == |u.tabs| + 1 && r.tabs[..|u.tabs|] == u.tabs
            && r.tabs[|u.tabs|].connectionId == u.selected
            && r.active == Some(r.tabs[|u.tabs|].id)
  {
    AddTabAppendsOne(u, u.connections[k], now);
  }

  /** Connecting twice to the same selection opens one tab, not two. */
  lemma ConnectTwiceOpensOneTab(u: Ui, now: nat, later: nat)
    ensures ConnectToSelected(ConnectToSelected(u, now), later).tabs == ConnectToSelected(u, now).tabs
  {
    var once := ConnectToSelected(u, now);
    if Present(u.selected) && FindConnection(u.connections, u.selected).Some? {
      var c := u.connections[FindConnection(u.connections, u.selected).value];
      if FindTabFor(u.tabs, c.id).None? {
        assert once.tabs[|u.tabs|].connectionId == c.id;
        assert FindTabFor(once.tabs, c.id).Some?;
      }
    }
  }

  /** Connecting keeps the active tab id naming an existing tab, whether it activates one or adds one. */
  lemma ConnectKeepsActiveValid(u: Ui, now: nat)
    requires ActiveValid(u)
    ensures ActiveValid(ConnectToSelected(u, now))
  {
    if Present(u.selected) && FindConnection(u.connections, u.selected).Some? {
      var c := u.connections[FindConnection(u.connections, u.selected).value];
      if FindTabFor(u.tabs, c.id).None? {
        AddTabAppendsOne(u, c, now);
      }
    }
  }

  /**
   * Deleting a connection closes exactly its tabs, keeps the others in
   * order, clears the active tab if it was one of them and otherwise keeps
   * it, and resets the form if the connection was selected.
   */
  lemma DeleteConnectionSpec(u: Ui, id: string, updated: seq<Profile>)
    requires ActiveValid(u)
    ensures var r := DeleteConnection(u, id, Ok(updated));
            && r.connections == updated
            && r.tabs == WithoutConnection(u.tabs, Some(id))
            && (forall t :: t in r.tabs <==> t in u.tabs && t.connectionId != Some(id))
            && (u.selected == Some(id) ==> r.selected == None && !r.editing && r.form == InitialValues)
            && (u.selected != Some(id) ==> r.selected == u.selected && r.editing == u.editing && r.form == u.form)
            && (r.active == None || r.active == u.active)
            && (FindTab(u.tabs, u.active).Some? && u.tabs[FindTab(u.tabs, u.active).value].connectionId == Some(id)
                ==> r.active == None)
            && (FindTab(u.tabs, u.active).Some? && u.tabs[FindTab(u.tabs, u.active).value].connectionId != Some(id)
                ==> r.active == u.active)
            && (r.active == None <==>
                  u.active == None
                  || (FindTab(u.tabs, u.active).Some? && u.tabs[FindTab(u.tabs, u.active).value].connectionId == Some(id)))
            && ActiveValid(r)
  {
    var r := DeleteConnection(u, id, Ok(updated));
    if r.active.Some? {
      var k := FindTab(u.tabs, u.active).value;
      assert u.tabs[k] in r.tabs;
      var j :| 0 <= j < |r.tabs| && r.tabs[j] == u.tabs[k];
    }
  }

  /** A notice changes the status of the active tab only; ids, names and connections stay. */
  lemma NoticeTouchesActiveOnly(u: Ui, message: string)
    requires ActiveValid(u)
    ensures var r := OnNotice(u, message);
            && |r.tabs| == |u.tabs| && r.active == u.active
            && (forall k :: 0 <= k < |u.tabs| && Some(u.tabs[k].id) != u.active ==> r.tabs[k] == u.tabs[k])
            && (forall k :: 0 <= k < |u.tabs| && Some(u.tabs[k].id) == u.active ==> r.tabs[k].status == message)
            && (forall k :: 0 <= k < |u.tabs| ==>
                  r.tabs[k].id == u.tabs[k].id && r.tabs[k].name == u.tabs[k].name
                  && r.tabs[k].connectionId == u.tabs[k].connectionId)
            && ActiveValid(r)
  {
    var r := OnNotice(u, message);
    if u.active.Some? {
      var k :| 0 <= k < |u.tabs| && u.tabs[k].id == u.active.value;
      assert r.tabs[k].id == u.active.value;
    }
  }

  /** An error notice sets the active tab's status to the prefixed message. */
  lemma ErrorStatus(u: Ui, error: string, k: nat)
    requires k < |u.tabs| && Some(u.tabs[k].id) == u.active
    ensures OnError(u, error).tabs[k].status == ErrorPrefix + error
  {
  }

  /**
   * The connect request `addTab` sends dials the stored profile's server
   * with its credentials, but never through its proxy: sessions opened from
   * the renderer connect directly.
   */
  lemma UiRequestsDialDirect(c: Profile, key: FileRead)
    ensures BuildConfig(ConnectRequest(c), key).Ok? ==> BuildConfig(ConnectRequest(c), key).value.agent == None
    ensures BuildConfig(ConnectRequest(c), key) == BuildConfig(c.(proxyType := None, proxyHost := None, proxyPort := None), key)
  {
  }
}
