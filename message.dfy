/**
 * The update broker of backend/message.ts. A `Processor` owns the update log, the audit
 * trail, the registered clients and the set of client ids already told about the current
 * reset. A `Client` filters live deliveries by its cursor, replays the log when it connects
 * and acknowledges a reset at most once per epoch.
 *
 * Listener callbacks are not functions here. Every invocation of a caller's listener is
 * appended, in the order it happens, to the processor's `calls`: which client's listener was
 * called, which `connect` call installed it (the client's connection count at the time), and
 * for an update listener the batch it was handed.
 */
module Broker {
  import opened Wrappers

  /** An update as stored in the log: the sender's opaque payload and the serials stamped on it. */
  datatype ReceivedUpdate<P> = ReceivedUpdate(payload: P, serial: int, maxSerial: int)

  /** An entry of the audit trail. */
  datatype Message<P> =
    | Sent(clientId: string, update: ReceivedUpdate<P>, descr: string)
    | Received(clientId: string, update: ReceivedUpdate<P>, descr: string)
    | Clear(clientId: string)

  /** One invocation of a listener a caller passed to `connect`, tagged with the client and
      with the `connect` call (counted from 1) that installed it. */
  datatype ListenerCall<P> =
    | UpdateCall(clientId: string, connection: nat, updates: seq<ReceivedUpdate<P>>)
    | ClearCall(clientId: string, connection: nat)

  /** The fields of a `Client` object at one moment. */
  datatype ClientState = ClientState(
    id: string,
    hasUpdateListener: bool,
    hasClearListener: bool,
    updateSerial: Option<int>,
    connections: nat)

  // ------------------------------------------------------------------
  // The log and catch-up replay
  // ------------------------------------------------------------------

  /** The log invariant: entry i carries serial i + 1 and was stamped with max_serial i + 1. */
  predicate SerialsConsecutive<P>(log: seq<ReceivedUpdate<P>>) {
    forall i :: 0 <= i < |log| ==> log[i].serial == i + 1 && log[i].maxSerial == i + 1
  }

  /** Where `slice(start)` starts on an array of length `len`: a negative start counts
      from the end, and a start past the end gives an empty slice. */
  function SliceStart(len: nat, start: int): (r: nat)
    ensures r <= len
  {
    if start < 0 then (if len + start < 0 then 0 else len + start)
    else if start > len then len
    else start
  }

  /** The `map` of `catchUp`: every entry with its max_serial replaced. */
  function Restamp<P>(updates: seq<ReceivedUpdate<P>>, maxSerial: int): (r: seq<ReceivedUpdate<P>>)
    ensures |r| == |updates|
    ensures forall k :: 0 <= k < |r| ==>
      r[k].payload == updates[k].payload && r[k].serial == updates[k].serial && r[k].maxSerial == maxSerial
  {
    if updates == [] then []
    else [updates[0].(maxSerial := maxSerial)] + Restamp(updates[1..], maxSerial)
  }

  /** The one batch `catchUp` hands its listener. */
  function CatchUpBatch<P>(log: seq<ReceivedUpdate<P>>, serial: int): (r: seq<ReceivedUpdate<P>>)
    ensures |r| == |log| - SliceStart(|log|, serial)
    ensures forall k :: 0 <= k < |r| ==>
      var e := log[SliceStart(|log|, serial) + k];
      r[k].payload == e.payload && r[k].serial == e.serial && r[k].maxSerial == |log|
  {
    Restamp(log[SliceStart(|log|, serial)..], |log|)
  }

  /** Replay from a cursor inside the log hands over exactly the entries after the cursor,
      in order, with their serials and payloads, each re-stamped with the log's length. */
  lemma ReplayIsComplete<P>(log: seq<ReceivedUpdate<P>>, serial: int)
    requires SerialsConsecutive(log)
    requires 0 <= serial <= |log|
    ensures var r := CatchUpBatch(log, serial);
      |r| == |log| - serial &&
      forall k :: 0 <= k < |r| ==>
        r[k].serial == serial + k + 1 && r[k].payload == log[serial + k].payload && r[k].maxSerial == |log|
  {
  }

  /** A client that has seen the whole log, or claims more, still gets one batch: an empty one. */
  lemma ReplayEmptyWhenCaughtUp<P>(log: seq<ReceivedUpdate<P>>, serial: int)
    requires serial >= |log|
    ensures CatchUpBatch(log, serial) == []
  {
  }

  /** A negative cursor is not rejected: as with `slice`, it replays the last `-serial` entries. */
  lemma ReplayNegativeCursor<P>(log: seq<ReceivedUpdate<P>>, serial: int)
    requires SerialsConsecutive(log)
    requires serial < 0
    ensures var r := CatchUpBatch(log, serial);
      |r| == (if -serial < |log| then -serial else |log|) &&
      forall k :: 0 <= k < |r| ==> r[k].serial == |log| - |r| + k + 1
  {
  }

  // ------------------------------------------------------------------
  // Live delivery
  // ------------------------------------------------------------------

  /** Whether `receiveUpdate(u)` passes `u` to the client's listener: the client has
      connected and `u` lies beyond its cursor. */
  predicate Accepts<P>(c: ClientState, u: ReceivedUpdate<P>) {
    c.hasUpdateListener && c.updateSerial.Some? && u.serial > c.updateSerial.value
  }

  /** The listener calls `receiveUpdate(u)` makes: the one-element batch `[u]` if the client accepts `u`. */
  function Delivery<P>(c: ClientState, u: ReceivedUpdate<P>): seq<ListenerCall<P>> {
    if Accepts(c, u) then [UpdateCall(c.id, c.connections, [u])] else []
  }

  /** The audit entries `receiveUpdate(u)` adds for the client. */
  function Receipt<P>(c: ClientState, u: ReceivedUpdate<P>): seq<Message<P>> {
    if Accepts(c, u) then [Received(c.id, u, "")] else []
  }

  /** The listener calls a fan-out of `u` to the first `n` clients of `cs`, in order, makes. */
  function LiveDeliveries<P>(cs: seq<ClientState>, n: nat, u: ReceivedUpdate<P>): seq<ListenerCall<P>>
    requires n <= |cs|
  {
    if n == 0 then [] else LiveDeliveries(cs, n - 1, u) + Delivery(cs[n - 1], u)
  }

  /** The audit entries a fan-out of `u` to the first `n` clients of `cs`, in order, adds. */
  function LiveReceipts<P>(cs: seq<ClientState>, n: nat, u: ReceivedUpdate<P>): seq<Message<P>>
    requires n <= |cs|
  {
    if n == 0 then [] else LiveReceipts(cs, n - 1, u) + Receipt(cs[n - 1], u)
  }

  /** Delivery is filtered by the cursor alone: a connected client accepts exactly the
      updates beyond its cursor, an unconnected one accepts nothing, and every listener
      call is mirrored by one audit entry for the same client. */
  lemma CursorFiltering<P>(c: ClientState, u: ReceivedUpdate<P>)
    ensures c.hasUpdateListener && c.updateSerial.Some? ==> (Accepts(c, u) <==> u.serial > c.updateSerial.value)
    ensures !c.hasUpdateListener || c.updateSerial.None? ==> Delivery(c, u) == [] && Receipt(c, u) == []
    ensures |Delivery(c, u)| == |Receipt(c, u)| <= 1
    ensures forall k :: 0 <= k < |Delivery(c, u)| ==> Delivery(c, u)[k].clientId == Receipt(c, u)[k].clientId == c.id
  {
  }

  /** The audit trail of a fan-out mirrors its listener calls: one `received` entry per call,
      in the same order, for the same client and the same update. */
  lemma {:induction false} LiveReceiptsMirrorDeliveries<P>(cs: seq<ClientState>, n: nat, u: ReceivedUpdate<P>)
    requires n <= |cs|
    ensures |LiveReceipts(cs, n, u)| == |LiveDeliveries(cs, n, u)|
    ensures forall k :: 0 <= k < |LiveReceipts(cs, n, u)| ==>
      var m, d := LiveReceipts(cs, n, u)[k], LiveDeliveries(cs, n, u)[k];
      m == Received(d.clientId, u, "") && d.UpdateCall? && d.updates == [u]
  {
    if n != 0 {
      LiveReceiptsMirrorDeliveries(cs, n - 1, u);
    }
  }

  /** The fan-out visits clients in registration order: the calls made for the first `m`
      clients are those for the first `k` followed by those for clients `k` to `m`. */
  lemma {:induction false} LiveDeliveriesConcat<P>(cs: seq<ClientState>, k: nat, m: nat, u: ReceivedUpdate<P>)
    requires k <= m <= |cs|
    ensures LiveDeliveries(cs, m, u) == LiveDeliveries(cs, k, u) + LiveDeliveries(cs[k..], m - k, u)
    decreases m
  {
    if m == k {
      assert LiveDeliveries(cs[k..], 0, u) == [];
    } else {
      LiveDeliveriesConcat(cs, k, m - 1, u);
      assert cs[k..][m - 1 - k] == cs[m - 1];
    }
  }

  /** Every call of a fan-out hands `[u]` to a client that accepts it, tagged with that
      client's current connection, and every client that accepts `u` is called. */
  lemma {:induction false} LiveDeliveriesToAcceptors<P>(cs: seq<ClientState>, n: nat, u: ReceivedUpdate<P>)
    requires n <= |cs|
    ensures |LiveDeliveries(cs, n, u)| <= n
    ensures forall d :: d in LiveDeliveries(cs, n, u) ==>
      d.UpdateCall? && d.updates == [u] &&
      exists i :: 0 <= i < n && Accepts(cs[i], u) && cs[i].id == d.clientId && cs[i].connections == d.connection
    ensures forall i :: 0 <= i < n && Accepts(cs[i], u) ==>
      UpdateCall(cs[i].id, cs[i].connections, [u]) in LiveDeliveries(cs, n, u)
  {
    if n != 0 {
      LiveDeliveriesToAcceptors(cs, n - 1, u);
      forall d | d in LiveDeliveries(cs, n, u)
        ensures d.UpdateCall? && d.updates == [u] &&
          exists i :: 0 <= i < n && Accepts(cs[i], u) && cs[i].id == d.clientId && cs[i].connections == d.connection
      {
        if d !in LiveDeliveries(cs, n - 1, u) {
          assert Accepts(cs[n - 1], u);
        }
      }
    }
  }

  // ------------------------------------------------------------------
  // Reset notification
  // ------------------------------------------------------------------

  /** Whether the clear path notifies the client, given the ids already notified this epoch. */
  predicate Notifies(c: ClientState, cleared: set<string>) {
    c.hasClearListener && c.id !in cleared
  }

  /** The listener calls the client's clear path makes. */
  function Acknowledgement<P>(c: ClientState, cleared: set<string>): seq<ListenerCall<P>> {
    if Notifies(c, cleared) then [ClearCall(c.id, c.connections)] else []
  }

  /** The ids notified this epoch after the client's clear path ran. */
  function ClearedAfter(c: ClientState, cleared: set<string>): set<string> {
    if Notifies(c, cleared) then cleared + {c.id} else cleared
  }

  /** The clear path fires at most once per id and epoch: afterwards the client counts as
      notified if it has a listener, and running the path again calls nothing and changes nothing. */
  lemma ClearPathIdempotent(c: ClientState, cleared: set<string>)
    ensures var e1 := ClearedAfter(c, cleared);
      (c.hasClearListener ==> c.id in e1) &&
      !Notifies(c, e1) && ClearedAfter(c, e1) == e1 &&
      e1 - cleared == (if Notifies(c, cleared) then {c.id} else {})
  {
  }

  /** The ids notified once the clear path has run for the first `n` clients, in order, from an empty set. */
  function ResetIds(cs: seq<ClientState>, n: nat): set<string>
    requires n <= |cs|
  {
    if n == 0 then {} else ClearedAfter(cs[n - 1], ResetIds(cs, n - 1))
  }

  /** Whether a broker-wide reset notifies client `i`. */
  predicate NotifiedOnReset(cs: seq<ClientState>, i: int)
    requires 0 <= i < |cs|
  {
    Notifies(cs[i], ResetIds(cs, i))
  }

  /** The clear-listener calls of a reset that has run the clear path of the first `n` clients. */
  function ResetCalls<P>(cs: seq<ClientState>, n: nat): seq<ListenerCall<P>>
    requires n <= |cs|
  {
    if n == 0 then [] else ResetCalls(cs, n - 1) + Acknowledgement(cs[n - 1], ResetIds(cs, n - 1))
  }

  /** After the clear path of the first `n` clients, the notified ids are exactly the ids of
      those of them that have a clear listener. */
  lemma {:induction false} ResetIdsAreListeners(cs: seq<ClientState>, n: nat, id: string)
    requires n <= |cs|
    ensures id in ResetIds(cs, n) <==> exists j :: 0 <= j < n && cs[j].hasClearListener && cs[j].id == id
  {
    if n != 0 {
      ResetIdsAreListeners(cs, n - 1, id);
    }
  }

  /** A reset notifies client `i` iff it has a clear listener and no earlier client with the
      same id has one; so when ids are distinct, every client with a listener is notified. */
  lemma ResetNotification(cs: seq<ClientState>, i: int)
    requires 0 <= i < |cs|
    ensures NotifiedOnReset(cs, i) <==>
      cs[i].hasClearListener && forall j :: 0 <= j < i && cs[j].id == cs[i].id ==> !cs[j].hasClearListener
    ensures IdsDistinct(cs) ==> (NotifiedOnReset(cs, i) <==> cs[i].hasClearListener)
  {
    ResetIdsAreListeners(cs, i, cs[i].id);
  }

  /** No two clients share an id. */
  predicate IdsDistinct(cs: seq<ClientState>) {
    forall j, k :: 0 <= j < k < |cs| ==> cs[j].id != cs[k].id
  }

  /** With distinct ids a reset notifies exactly the clients that have a clear listener,
      and the notified set is exactly their ids. */
  lemma ResetWithDistinctIds(cs: seq<ClientState>)
    requires IdsDistinct(cs)
    ensures forall k :: 0 <= k < |cs| ==> (NotifiedOnReset(cs, k) <==> cs[k].hasClearListener)
    ensures forall k :: 0 <= k < |cs| ==> (cs[k].id in ResetIds(cs, |cs|) <==> cs[k].hasClearListener)
  {
    forall k | 0 <= k < |cs|
      ensures NotifiedOnReset(cs, k) <==> cs[k].hasClearListener
      ensures cs[k].id in ResetIds(cs, |cs|) <==> cs[k].hasClearListener
    {
      ResetNotification(cs, k);
      ResetIdsAreListeners(cs, |cs|, cs[k].id);
    }
  }

  /** `r` calls each id of `ids` exactly once and nothing else: only clear calls, each for an
      id of `ids`, pairwise different ids, and every id of `ids` called. */
  ghost predicate ClearsOncePerId<P>(r: seq<ListenerCall<P>>, ids: set<string>) {
    (forall k :: 0 <= k < |r| ==> r[k].ClearCall? && r[k].clientId in ids) &&
    (forall k, l :: 0 <= k < l < |r| ==> r[k].clientId != r[l].clientId) &&
    (forall id :: id in ids ==> exists k :: 0 <= k < |r| && r[k].clientId == id)
  }

  /** A reset calls each notified id's clear listener exactly once: the calls go to pairwise
      different ids, and those ids are the notified set. */
  lemma {:induction false} ResetCallsOncePerId<P>(cs: seq<ClientState>, n: nat)
    requires n <= |cs|
    ensures ClearsOncePerId<P>(ResetCalls(cs, n), ResetIds(cs, n))
  {
    if n != 0 {
      ResetCallsOncePerId<P>(cs, n - 1);
      var c, before := cs[n - 1], ResetIds(cs, n - 1);
      var r0: seq<ListenerCall<P>> := ResetCalls(cs, n - 1);
      if Notifies(c, before) {
        assert ResetCalls<P>(cs, n) == r0 + [ClearCall(c.id, c.connections)];
        AppendFreshClear(r0, before, ClearCall(c.id, c.connections));
      } else {
        assert ResetCalls<P>(cs, n) == r0 && ResetIds(cs, n) == before;
      }
    }
  }

  /** A clear call for an id no earlier call has keeps the calls once per id. */
  lemma AppendFreshClear<P>(r0: seq<ListenerCall<P>>, ids: set<string>, call: ListenerCall<P>)
    requires ClearsOncePerId(r0, ids)
    requires call.ClearCall? && call.clientId !in ids
    ensures ClearsOncePerId(r0 + [call], ids + {call.clientId})
  {
    var r := r0 + [call];
    forall k, l | 0 <= k < l < |r|
      ensures r[k].clientId != r[l].clientId
    {
      assert r[k] == r0[k];
      if l < |r0| {
        assert r[l] == r0[l];
      }
    }
    forall id | id in ids + {call.clientId}
      ensures exists k :: 0 <= k < |r| && r[k].clientId == id
    {
      if id in ids {
        var k :| 0 <= k < |r0| && r0[k].clientId == id;
        assert r[k] == r0[k];
      } else {
        assert r[|r0|].clientId == id;
      }
    }
  }

  /** The calls `r` go exactly to the current clear listeners of the clients among the first
      `n` that a reset notifies: each call is the `ClearCall` of such a client, tagged with its
      current connection, and each such client has its call in `r`. */
  ghost predicate CallsNotified<P>(r: seq<ListenerCall<P>>, cs: seq<ClientState>, n: nat)
    requires n <= |cs|
  {
    (forall d :: d in r ==> exists i :: 0 <= i < n && NotifiedOnReset(cs, i) && d == ClearCall(cs[i].id, cs[i].connections)) &&
    (forall i :: 0 <= i < n && NotifiedOnReset(cs, i) ==> ClearCall(cs[i].id, cs[i].connections) in r)
  }

  /** Each call of a reset goes to the current clear listener of a client it notifies (tagged
      with that client's current connection), and every notified client gets that call. */
  lemma {:induction false} ResetCallsTagged<P>(cs: seq<ClientState>, n: nat)
    requires n <= |cs|
    ensures CallsNotified<P>(ResetCalls(cs, n), cs, n)
  {
    if n != 0 {
      ResetCallsTagged<P>(cs, n - 1);
      NextClientCalls<P>(ResetCalls(cs, n - 1), cs, n);
    }
  }

  /** One more client's clear path extends the calls of a reset by that client's call, if any. */
  lemma NextClientCalls<P>(r0: seq<ListenerCall<P>>, cs: seq<ClientState>, n: nat)
    requires 0 < n <= |cs|
    requires CallsNotified(r0, cs, n - 1)
    ensures CallsNotified(r0 + Acknowledgement(cs[n - 1], ResetIds(cs, n - 1)), cs, n)
  {
    var c := cs[n - 1];
    var r := r0 + Acknowledgement(c, ResetIds(cs, n - 1));
    assert NotifiedOnReset(cs, n - 1) == Notifies(c, ResetIds(cs, n - 1));
    forall d | d in r
      ensures exists i :: 0 <= i < n && NotifiedOnReset(cs, i) && d == ClearCall(cs[i].id, cs[i].connections)
    {
      if d in r0 {
        var i :| 0 <= i < n - 1 && NotifiedOnReset(cs, i) && d == ClearCall(cs[i].id, cs[i].connections);
      } else {
        assert NotifiedOnReset(cs, n - 1) && d == ClearCall(c.id, c.connections);
      }
    }
    forall i | 0 <= i < n && NotifiedOnReset(cs, i)
      ensures ClearCall(cs[i].id, cs[i].connections) in r
    {
      if i < n - 1 {
        assert ClearCall(cs[i].id, cs[i].connections) in r0;
      }
    }
  }

  /** Appending in two steps is appending the concatenation. */
  lemma AppendAssoc<T>(a: seq<T>, b: seq<T>, c: seq<T>)
    ensures (a + b) + c == a + (b + c)
  {
  }

  // ------------------------------------------------------------------
  // The objects
  // ------------------------------------------------------------------

  /** The sequence of the clients' states. */
  ghost function StatesOf<P>(cs: seq<Client<P>>): (r: seq<ClientState>)
    reads cs
  {
    seq(|cs|, i requires 0 <= i < |cs| reads cs => cs[i].State())
  }

  class Client<P> {
    const processor: Processor<P>
    const id: string
    var hasUpdateListener: bool
    var hasClearListener: bool
    var updateSerial: Option<int>
    /** How many times `connect` was called; tags the listeners it installed. */
    var connections: nat

    ghost function State(): ClientState
      reads this`hasUpdateListener, this`hasClearListener, this`updateSerial, this`connections
    {
      ClientState(id, hasUpdateListener, hasClearListener, updateSerial, connections)
    }

    constructor (processor: Processor<P>, id: string)
      ensures this.processor == processor
      ensures State() == ClientState(id, false, false, None, 0)
    {
      this.processor := processor;
      this.id := id;
      hasUpdateListener := false;
      hasClearListener := false;
      updateSerial := None;
      connections := 0;
    }

    /** Hands the update to the processor for distribution. */
    method SendUpdate(payload: P, descr: string)
      requires processor.Valid()
      modifies processor`currentSerial, processor`updates, processor`messages, processor`calls
      ensures processor.Valid()
      ensures processor.currentSerial == old(processor.currentSerial) + 1
      ensures processor.updates == old(processor.updates) + [ReceivedUpdate(payload, processor.currentSerial, processor.currentSerial)]
      ensures var u := processor.updates[|processor.updates| - 1];
        processor.messages == old(processor.messages) + [Sent(id, u, descr)] + LiveReceipts(processor.States(), |processor.clients|, u) &&
        processor.calls == old(processor.calls) + LiveDeliveries(processor.States(), |processor.clients|, u)
    {
      processor.Distribute(id, payload, descr);
    }

    /** Installs the listeners, sets the cursor and replays the log from it. The clear path
        runs first; the replay goes to the caller's listener directly, so it is not audited. */
    method Connect(serial: int)
      modifies this, processor`messages, processor`clearClientIds, processor`calls
      ensures connections == old(connections) + 1
      ensures hasUpdateListener && hasClearListener && updateSerial == Some(serial)
      ensures processor.clearClientIds == old(processor.clearClientIds) + {id}
      ensures processor.messages ==
        old(processor.messages) + (if id in old(processor.clearClientIds) then [] else [Message.Clear(id)])
      ensures processor.calls == old(processor.calls) +
        (if id in old(processor.clearClientIds) then [] else [ClearCall(id, connections)]) +
        [UpdateCall(id, connections, CatchUpBatch(processor.updates, serial))]
    {
      connections := connections + 1;
      SetClearListener();
      hasUpdateListener := true;
      updateSerial := Some(serial);
      processor.CatchUp(id, connections, serial);
    }

    /** Installs a clear listener and runs the clear path at once. */
    method SetClearListener()
      modifies this`hasClearListener, processor`messages, processor`clearClientIds, processor`calls
      ensures hasClearListener
      ensures processor.clearClientIds == old(processor.clearClientIds) + {id}
      ensures processor.messages ==
        old(processor.messages) + (if id in old(processor.clearClientIds) then [] else [Message.Clear(id)])
      ensures processor.calls ==
        old(processor.calls) + (if id in old(processor.clearClientIds) then [] else [ClearCall(id, connections)])
    {
      hasClearListener := true;
      Clear();
    }

    /** Live delivery: passes `[u]` to the listener when connected and `u` is beyond the cursor. */
    method ReceiveUpdate(u: ReceivedUpdate<P>)
      modifies processor`messages, processor`calls
      ensures processor.messages == old(processor.messages) + Receipt(State(), u)
      ensures processor.calls == old(processor.calls) + Delivery(State(), u)
    {
      if !hasUpdateListener || updateSerial.None? {
        return;
      }
      if u.serial <= updateSerial.value {
        return;
      }
      // the wrapped listener: audit entry first, then the caller's listener
      processor.messages := processor.messages + [Received(id, u, "")];
      processor.calls := processor.calls + [UpdateCall(id, connections, [u])];
    }

    /** The clear path: fires the clear listener unless this id was already notified this epoch. */
    method Clear()
      modifies processor`messages, processor`clearClientIds, processor`calls
      ensures processor.clearClientIds == ClearedAfter(State(), old(processor.clearClientIds))
      ensures processor.messages ==
        old(processor.messages) + (if Notifies(State(), old(processor.clearClientIds)) then [Message.Clear(id)] else [])
      ensures processor.calls == old(processor.calls) + Acknowledgement(State(), old(processor.clearClientIds))
    {
      if !hasClearListener || id in processor.clearClientIds {
        return;
      }
      // the wrapped clear listener: audit entry first, then the caller's listener
      processor.messages := processor.messages + [Message.Clear(id)];
      processor.calls := processor.calls + [ClearCall(id, connections)];
      processor.clearClientIds := processor.clearClientIds + {id};
    }
  }

  class Processor<P> {
    var clients: seq<Client<P>>
    var currentSerial: int
    var updates: seq<ReceivedUpdate<P>>
    var messages: seq<Message<P>>
    var clearClientIds: set<string>
    /** The listener invocations so far, in order (the world outside the broker). */
    var calls: seq<ListenerCall<P>>

    /** The broker invariant: the clients belong to this processor, and the log holds
        serials 1, 2, ... with the counter at its length. */
    ghost predicate Valid()
      reads this`clients, this`currentSerial, this`updates
    {
      Owns() &&
      currentSerial == |updates| &&
      SerialsConsecutive(updates)
    }

    /** Every registered client reports to this processor. */
    ghost predicate Owns()
      reads this`clients
    {
      forall i :: 0 <= i < |clients| ==> clients[i].processor == this
    }

    ghost function States(): seq<ClientState>
      reads this`clients, clients
    {
      StatesOf(clients)
    }

    constructor ()
      ensures Valid()
      ensures clients == [] && currentSerial == 0 && updates == [] && messages == [] && clearClientIds == {} && calls == []
    {
      clients := [];
      currentSerial := 0;
      updates := [];
      messages := [];
      clearClientIds := {};
      calls := [];
    }

    /** Registers a new, unconnected client with the given id (no uniqueness check). */
    method CreateClient(id: string) returns (c: Client<P>)
      requires Valid()
      modifies this`clients
      ensures Valid() && fresh(c)
      ensures clients == old(clients) + [c]
      ensures c.processor == this && c.State() == ClientState(id, false, false, None, 0)
    {
      c := new Client(this, id);
      clients := clients + [c];
    }

    /** Stamps the next serial on the update, logs and audits it, and pushes it to every
        client in registration order, the sender included. */
    method Distribute(clientId: string, payload: P, descr: string)
      requires Valid()
      modifies this`currentSerial, this`updates, this`messages, this`calls
      ensures Valid()
      ensures currentSerial == old(currentSerial) + 1
      ensures updates == old(updates) + [ReceivedUpdate(payload, old(currentSerial) + 1, |old(updates)| + 1)]
      ensures var u := updates[|updates| - 1];
        u.serial == u.maxSerial == |updates| &&
        messages == old(messages) + [Sent(clientId, u, descr)] + LiveReceipts(States(), |clients|, u) &&
        calls == old(calls) + LiveDeliveries(States(), |clients|, u)
    {
      currentSerial := currentSerial + 1;
      var u := ReceivedUpdate(payload, currentSerial, |updates| + 1);
      updates := updates + [u];
      messages := messages + [Sent(clientId, u, descr)];
      FanOut(u);
    }

    /** The loop of `distribute`: `receiveUpdate(u)` on every client, in registration order. */
    method FanOut(u: ReceivedUpdate<P>)
      requires Owns()
      modifies this`messages, this`calls
      ensures messages == old(messages) + LiveReceipts(States(), |clients|, u)
      ensures calls == old(calls) + LiveDeliveries(States(), |clients|, u)
    {
      ghost var before := States();
      var cs := clients;
      for i := 0 to |cs|
        invariant messages == old(messages) + LiveReceipts(before, i, u)
        invariant calls == old(calls) + LiveDeliveries(before, i, u)
      {
        cs[i].ReceiveUpdate(u);
        AppendAssoc(old(messages), LiveReceipts(before, i, u), Receipt(before[i], u));
        AppendAssoc(old(calls), LiveDeliveries(before, i, u), Delivery(before[i], u));
      }
    }

    /** Starts a new epoch: every client's clear path against a fresh set of notified ids,
        then an empty log and audit trail and the serials restarted. */
    method Clear()
      requires Valid()
      modifies this`clearClientIds, this`updates, this`messages, this`currentSerial, this`calls
      ensures Valid()
      ensures updates == [] && messages == [] && currentSerial == 0
      ensures clearClientIds == ResetIds(States(), |clients|)
      ensures calls == old(calls) + ResetCalls(States(), |clients|)
    {
      NotifyReset();
      updates := [];
      messages := [];
      currentSerial := 0;
    }

    /** The first half of `clear`: a fresh set of notified ids, then the clear path of every
        client in registration order. */
    method NotifyReset()
      requires Owns()
      modifies this`clearClientIds, this`messages, this`calls
      ensures clearClientIds == ResetIds(States(), |clients|)
      ensures calls == old(calls) + ResetCalls(States(), |clients|)
    {
      clearClientIds := {};
      ghost var before := States();
      var cs := clients;
      for i := 0 to |cs|
        invariant clearClientIds == ResetIds(before, i)
        invariant calls == old(calls) + ResetCalls(before, i)
      {
        cs[i].Clear();
        assert ResetIds(before, i + 1) == ClearedAfter(before[i], ResetIds(before, i));
        AppendAssoc(old(calls), ResetCalls(before, i), Acknowledgement(before[i], ResetIds(before, i)));
      }
    }

    /** Hands a listener one batch: the log from `serial` on, re-stamped with the log's length.
        The listener is the one client `clientId` got from its `connection`-th `connect`. */
    method CatchUp(clientId: string, connection: nat, serial: int)
      modifies this`calls
      ensures calls == old(calls) + [UpdateCall(clientId, connection, CatchUpBatch(updates, serial))]
    {
      var maxSerial := |updates|;
      var batch := Restamp(updates[SliceStart(|updates|, serial)..], maxSerial);
      calls := calls + [UpdateCall(clientId, connection, batch)];
    }
  }
}
