/**
 * The preload bridge: the allow-lists of `send`, `receive` and `invoke`, and
 * the renderer's listener table that `receive` subscribes to and whose
 * cleanup unsubscribes.
 */
module Preload {
  import opened Wrappers

  /** Channels the renderer may fire at the main process. */
  const SendChannels: set<string> := {"connect-ssh", "ssh-input"}
  /** Channels the renderer may listen on. */
  const ReceiveChannels: set<string> := {"ssh-output", "ssh-error", "ssh-connected", "ssh-disconnected"}
  /** Channels the renderer may call and await. */
  const InvokeChannels: set<string> := {"get-connections", "save-connection", "delete-connection", "read-file"}

  const InvalidChannel := "Invalid IPC channel"

  /** A message handed to `ipcRenderer.send` or `ipcRenderer.invoke`. */
  datatype Forward<D> = Forward(channel: string, data: D)

  /** `send`: the message is forwarded for an allowed channel and silently dropped otherwise. */
  function Send<D>(channel: string, data: D): (r: Option<Forward<D>>)
    ensures r.Some? <==> channel == "connect-ssh" || channel == "ssh-input"
    ensures r.Some? ==> r.value == Forward(channel, data)
  {
    if channel in SendChannels then Some(Forward(channel, data)) else None
  }

  /** What `invoke` returns: the main process's pending answer, or a rejected promise. */
  datatype Invoked<A> = Pending(call: Forward<seq<A>>) | Rejected(reason: string)

  /** `invoke`: forwarded for an allowed channel with all its arguments, rejected otherwise. */
  function Invoke<A>(channel: string, args: seq<A>): (r: Invoked<A>)
    ensures r.Pending? <==> channel in {"get-connections", "save-connection", "delete-connection", "read-file"}
    ensures r.Pending? ==> r.call == Forward(channel, args)
    ensures r.Rejected? ==> r.reason == "Invalid IPC channel"
  {
    if channel in InvokeChannels then Pending(Forward(channel, args)) else Rejected(InvalidChannel)
  }

  /** No channel is allowed in two directions. */
  lemma AllowListsDisjoint()
    ensures SendChannels !! ReceiveChannels && SendChannels !! InvokeChannels && ReceiveChannels !! InvokeChannels
  {
  }

  /** A subscription in `ipcRenderer`'s table: the wrapper `subscription` made for `func` on `channel`. */
  datatype Listener<F> = Listener(channel: string, subscription: nat, func: F)

  /** What `receive` returns: a cleanup that removes one subscription, or the no-op. */
  datatype Cleanup = RemoveListener(channel: string, subscription: nat) | NoOp

  /** A call of a renderer callback with the arguments that followed the event object. */
  datatype Call<F> = Call(func: F, args: seq<string>)

  /**
   * `ipcRenderer.removeListener`: the most recently added entry for that
   * channel and subscription goes; everything else stays in order.
   */
  function RemoveLast<F>(ls: seq<Listener<F>>, channel: string, subscription: nat): (r: seq<Listener<F>>)
    ensures |r| == |ls| || |r| == |ls| - 1
  {
    if ls == [] then []
    else
      var last := ls[|ls| - 1];
      if last.channel == channel && last.subscription == subscription then ls[..|ls| - 1]
      else RemoveLast(ls[..|ls| - 1], channel, subscription) + [last]
  }

  /** The listener table after running a cleanup. */
  function RunCleanup<F>(ls: seq<Listener<F>>, c: Cleanup): seq<Listener<F>> {
    match c
    case NoOp => ls
    case RemoveListener(channel, subscription) => RemoveLast(ls, channel, subscription)
  }

  /** The listener table after running several cleanups in order. */
  function RunCleanups<F>(ls: seq<Listener<F>>, cs: seq<Cleanup>): seq<Listener<F>>
    decreases |cs|
  {
    if cs == [] then ls else RunCleanups(RunCleanup(ls, cs[0]), cs[1..])
  }

  /** The entries of the table registered on `channel`, in registration order. */
  function OnChannel<F>(ls: seq<Listener<F>>, channel: string): (r: seq<Listener<F>>)
    ensures forall x :: x in r ==> x in ls && x.channel == channel
    ensures forall x :: x in ls && x.channel == channel ==> x in r
  {
    if ls == [] then []
    else if ls[0].channel == channel then [ls[0]] + OnChannel(ls[1..], channel)
    else OnChannel(ls[1..], channel)
  }

  /** Selecting one channel's entries keeps registration order: it distributes over concatenation. */
  lemma {:induction false} OnChannelAppend<F>(a: seq<Listener<F>>, b: seq<Listener<F>>, channel: string)
    ensures OnChannel(a + b, channel) == OnChannel(a, channel) + OnChannel(b, channel)
  {
    if a != [] {
      assert (a + b)[1..] == a[1..] + b;
      OnChannelAppend(a[1..], b, channel);
    } else {
      assert a + b == b;
    }
  }

  /**
   * The callbacks an emit on `channel` runs: one per subscription on that
   * channel, in subscription order, each given the arguments after the event
   * object (the event itself is dropped).
   */
  function Dispatch<F, E>(ls: seq<Listener<F>>, channel: string, event: E, args: seq<string>): (r: seq<Call<F>>)
    ensures |r| == |OnChannel(ls, channel)|
    ensures forall k :: 0 <= k < |r| ==> r[k] == Call(OnChannel(ls, channel)[k].func, args)
  {
    if ls == [] then []
    else
      var rest := Dispatch(ls[1..], channel, event, args);
      if ls[0].channel == channel then [Call(ls[0].func, args)] + rest else rest
  }

  /** Subscriptions are numbered uniquely, below the next number to hand out. */
  ghost predicate UniqueSubscriptions<F>(ls: seq<Listener<F>>, next: nat) {
    (forall i :: 0 <= i < |ls| ==> ls[i].subscription < next) &&
    (forall i, j :: 0 <= i < j < |ls| ==> ls[i].subscription != ls[j].subscription)
  }

  /** The cleanup of a subscription removes exactly that entry, with any entries added since left alone. */
  lemma {:induction false} RemoveSubscribed<F>(before: seq<Listener<F>>, x: Listener<F>, since: seq<Listener<F>>)
    requires forall i :: 0 <= i < |since| ==> since[i].subscription != x.subscription
    ensures RemoveLast(before + [x] + since, x.channel, x.subscription) == before + since
  {
    var ls := before + [x] + since;
    if since == [] {
      assert ls[..|ls| - 1] == before;
    } else {
      var init := since[..|since| - 1];
      assert ls[..|ls| - 1] == before + [x] + init;
      assert ls[|ls| - 1] == since[|since| - 1];
      RemoveSubscribed(before, x, init);
      assert before + init + [since[|since| - 1]] == before + since;
    }
  }

  /** Removing a subscription number that is not in the table changes nothing. */
  lemma {:induction false} RemoveAbsent<F>(ls: seq<Listener<F>>, channel: string, subscription: nat)
    requires forall i :: 0 <= i < |ls| ==> ls[i].subscription != subscription
    ensures RemoveLast(ls, channel, subscription) == ls
  {
    if ls != [] {
      RemoveAbsent(ls[..|ls| - 1], channel, subscription);
    }
  }

  /** Running a subscription's cleanup a second time does nothing. */
  lemma CleanupTwice<F>(before: seq<Listener<F>>, x: Listener<F>, since: seq<Listener<F>>, next: nat)
    requires UniqueSubscriptions(before + [x] + since, next)
    ensures var c := RemoveListener(x.channel, x.subscription);
            RunCleanup(RunCleanup(before + [x] + since, c), c) == before + since
  {
    var ls := before + [x] + since;
    forall i | 0 <= i < |since| ensures since[i].subscription != x.subscription {
      assert since[i] == ls[|before| + 1 + i] && x == ls[|before|];
    }
    RemoveSubscribed(before, x, since);
    forall i | 0 <= i < |before + since| ensures (before + since)[i].subscription != x.subscription {
      if i < |before| {
        assert (before + since)[i] == ls[i];
      } else {
        assert (before + since)[i] == ls[i + 1];
      }
      assert x == ls[|before|];
    }
    RemoveAbsent(before + since, x.channel, x.subscription);
  }

  /** The renderer's `ipcRenderer` listener table, shared by every `receive` call. */
  class IpcRenderer<F> {
    var listeners: seq<Listener<F>>
    var nextSubscription: nat

    ghost predicate Valid()
      reads this
    {
      UniqueSubscriptions(listeners, nextSubscription)
    }

    constructor ()
      ensures Valid() && listeners == [] && nextSubscription == 0
    {
      listeners := [];
      nextSubscription := 0;
    }

    /**
     * `receive`: on an allowed channel a new subscription for `func` is
     * appended and its cleanup returned; otherwise nothing is registered and
     * the no-op cleanup is returned.
     */
    method Receive(channel: string, func: F) returns (cleanup: Cleanup)
      requires Valid()
      modifies this
      ensures Valid()
      ensures channel in ReceiveChannels ==>
                && listeners == old(listeners) + [Listener(channel, old(nextSubscription), func)]
                && cleanup == RemoveListener(channel, old(nextSubscription))
                && nextSubscription == old(nextSubscription) + 1
      ensures channel !in ReceiveChannels ==>
                listeners == old(listeners) && nextSubscription == old(nextSubscription) && cleanup == NoOp
    {
      if channel in ReceiveChannels {
        var subscription := nextSubscription;
        listeners := listeners + [Listener(channel, subscription, func)];
        nextSubscription := nextSubscription + 1;
        cleanup := RemoveListener(channel, subscription);
      } else {
        cleanup := NoOp;
      }
    }

    /** Calling a cleanup that `receive` returned. */
    method Clean(c: Cleanup)
      requires Valid()
      modifies this`listeners
      ensures Valid()
      ensures listeners == RunCleanup(old(listeners), c)
    {
      match c
      case NoOp =>
      case RemoveListener(channel, subscription) =>
        RemoveLastKeepsUnique(listeners, channel, subscription, nextSubscription);
        listeners := RemoveLast(listeners, channel, subscription);
    }
  }

  /** Removal keeps subscription numbers unique. */
  lemma {:induction false} RemoveLastKeepsUnique<F>(ls: seq<Listener<F>>, channel: string, subscription: nat, next: nat)
    requires UniqueSubscriptions(ls, next)
    ensures UniqueSubscriptions(RemoveLast(ls, channel, subscription), next)
    ensures forall x :: x in RemoveLast(ls, channel, subscription) ==> x in ls
  {
    if ls != [] {
      var init := ls[..|ls| - 1];
      var last := ls[|ls| - 1];
      assert UniqueSubscriptions(init, next) by {
        forall i, j | 0 <= i < j < |init| ensures init[i].subscription != init[j].subscription {
          assert init[i] == ls[i] && init[j] == ls[j];
        }
        forall i | 0 <= i < |init| ensures init[i].subscription < next {
          assert init[i] == ls[i];
        }
      }
      RemoveLastKeepsUnique(init, channel, subscription, next);
      if !(last.channel == channel && last.subscription == subscription) {
        var rest := RemoveLast(init, channel, subscription);
        var r := rest + [last];
        forall i, j | 0 <= i < j < |r| ensures r[i].subscription != r[j].subscription {
          if j == |r| - 1 {
            assert r[i] in rest;
            assert r[i] in init;
            var k :| 0 <= k < |init| && init[k] == r[i];
            assert ls[k] == r[i];
          } else {
            assert r[i] == rest[i] && r[j] == rest[j];
          }
        }
        forall x | x in r ensures x in ls {
          if x in rest {
            assert x in init;
          }
        }
      }
    }
  }
}
