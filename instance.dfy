/**
 * The instance registry of backend/instance.ts. `Instances` hands out one port per `add`,
 * counting up from a base port, registers an `Instance` under it and creates the broker
 * client that instance talks through. Every instance's socket handler dispatches the
 * messages its peer sends on their `type` field.
 *
 * The HTTP and websocket objects are not modelled: a peer message arrives already parsed,
 * and the reply to an info request is returned instead of sent.
 */
module InstanceRegistry {
  import opened Wrappers
  import opened Broker
  import opened Decimal

  // ------------------------------------------------------------------
  // Peer messages and their dispatch
  // ------------------------------------------------------------------

  /** A parsed message from a peer. Only the fields the handler reads are kept; which of
      them mean anything depends on `msgType`. */
  datatype Inbound<P> = Inbound(msgType: string, update: P, descr: string, serial: int)

  /** `isSendUpdateMessage`: the peer sends an update. */
  predicate IsSendUpdateMessage<P>(m: Inbound<P>) {
    m.msgType == "sendUpdate"
  }

  /** `isSetUpdateListenerMessage`: the peer sets its update listener from a serial on. */
  predicate IsSetUpdateListenerMessage<P>(m: Inbound<P>) {
    m.msgType == "setUpdateListener"
  }

  /** `isRequestInfoMessage`: the peer asks for its instance's name and color. */
  predicate IsRequestInfoMessage<P>(m: Inbound<P>) {
    m.msgType == "requestInfo"
  }

  /** What the handler does with a message. */
  datatype Action<P> =
    | SendUpdate(payload: P, descr: string)
    | Connect(serial: int)
    | RequestInfo

  /** The errors `add` and the message handler throw. */
  datatype InstanceError =
    | AlreadyHaveInstance(port: int)
    | UnknownMessage(msgType: string)

  /** The reply the handler sends back on the peer's socket. */
  datatype Reply = Info(name: string, color: string)

  /** The if/else chain of the handler: the first predicate that holds picks the action,
      and a message none of them accepts is an error. */
  function Dispatch<P>(m: Inbound<P>): (r: Result<Action<P>, InstanceError>)
    ensures r == Ok(SendUpdate(m.update, m.descr)) <==> IsSendUpdateMessage(m)
    ensures r == Ok(Connect(m.serial)) <==> IsSetUpdateListenerMessage(m)
    ensures r == Ok(RequestInfo) <==> IsRequestInfoMessage(m)
    ensures r.Err? <==> !IsSendUpdateMessage(m) && !IsSetUpdateListenerMessage(m) && !IsRequestInfoMessage(m)
    ensures r.Err? ==> r.error == UnknownMessage(m.msgType)
  {
    if IsSendUpdateMessage(m) then Ok(SendUpdate(m.update, m.descr))
    else if IsSetUpdateListenerMessage(m) then Ok(Connect(m.serial))
    else if IsRequestInfoMessage(m) then Ok(RequestInfo)
    else Err(UnknownMessage(m.msgType))
  }

  /** At most one of the three predicates holds, so the order of the chain does not matter,
      and each action is reached by messages of exactly one type. */
  lemma DispatchIsByType<P>(m: Inbound<P>, n: Inbound<P>)
    ensures !(IsSendUpdateMessage(m) && IsSetUpdateListenerMessage(m))
    ensures !(IsSendUpdateMessage(m) && IsRequestInfoMessage(m))
    ensures !(IsSetUpdateListenerMessage(m) && IsRequestInfoMessage(m))
    ensures m.msgType == n.msgType ==> (Dispatch(m).Ok? <==> Dispatch(n).Ok?)
    ensures (Dispatch(m).Ok? && Dispatch(n).Ok? && Dispatch(m).value.RequestInfo? == Dispatch(n).value.RequestInfo? &&
      Dispatch(m).value.Connect? == Dispatch(n).value.Connect?) ==> m.msgType == n.msgType
  {
  }

  // ------------------------------------------------------------------
  // The objects
  // ------------------------------------------------------------------

  /** The address an instance at `port` is served on. */
  function UrlFor(port: int): (url: string)
    ensures |url| > 17 && url[..17] == "http://localhost:" && url[17..] == IntToString(port)
  {
    "http://localhost:" + IntToString(port)
  }

  /** Clients named after the consecutive ports above `basePort` have distinct ids. */
  lemma PortIdsDistinct(cs: seq<ClientState>, basePort: int)
    requires forall k :: 0 <= k < |cs| ==> cs[k].id == IntToString(basePort + k + 1)
    ensures IdsDistinct(cs)
  {
    forall j, k | 0 <= j < k < |cs|
      ensures cs[j].id != cs[k].id
    {
      var a, b := basePort + j + 1, basePort + k + 1;
      assert cs[j].id == IntToString(a) && cs[k].id == IntToString(b);
      IntToStringInjective(a, b);
    }
  }

  /** One simulated peer: its port, the id and URL derived from it, its colour, and the
      broker client it sends and receives updates through. */
  class Instance<P> {
    const port: int
    const id: string
    const url: string
    const color: string
    const webXdc: Client<P>

    constructor (port: int, webXdc: Client<P>, colorForId: string -> string)
      ensures this.port == port && this.webXdc == webXdc
      ensures id == IntToString(port)
      ensures url == UrlFor(port)
      ensures color == colorForId(IntToString(port))
    {
      this.port := port;
      this.webXdc := webXdc;
      id := IntToString(port);
      url := UrlFor(port);
      color := colorForId(IntToString(port));
    }
  }

  class Instances<P> {
    /** The app's name from its manifest, sent in info replies. */
    const appName: string
    const basePort: int
    const processor: Processor<P>
    /** The colour an instance id gets. */
    const colorForId: string -> string
    var currentPort: int
    var instances: map<int, Instance<P>>

    /** The registry invariant: `add` has run `currentPort - basePort` times, no key lies
        outside the ports it handed out, and the k-th client of the processor belongs to the
        instance registered under the k-th port. */
    ghost predicate Valid()
      reads this`currentPort, this`instances, processor`clients, processor`currentSerial, processor`updates
    {
      processor.Valid() &&
      currentPort - basePort == |processor.clients| &&
      (forall p :: p in instances ==> basePort < p <= currentPort) &&
      (forall k :: 0 <= k < |processor.clients| ==> Registered(k))
    }

    /** The k-th client belongs to the instance of port `basePort + k + 1` and has its id. */
    ghost predicate Registered(k: nat)
      reads this`instances, processor`clients
      requires k < |processor.clients|
    {
      var p := basePort + k + 1;
      p in instances && instances[p].port == p && instances[p].webXdc == processor.clients[k] &&
      processor.clients[k].id == IntToString(p)
    }

    constructor (appName: string, basePort: int, colorForId: string -> string)
      ensures Valid() && fresh(processor)
      ensures this.appName == appName && this.basePort == basePort && this.colorForId == colorForId
      ensures currentPort == basePort && instances == map[]
      ensures processor.clients == [] && processor.updates == [] && processor.messages == [] && processor.calls == [] &&
        processor.clearClientIds == {}
    {
      this.appName := appName;
      this.basePort := basePort;
      this.colorForId := colorForId;
      currentPort := basePort;
      instances := map[];
      processor := new Processor();
    }

    /** Takes the next port, refuses it if an instance already has it, and otherwise
        registers a new instance there with a fresh broker client of the same id. Under the
        registry invariant every key is at most `currentPort`, so the refusal never happens. */
    method Add() returns (r: Result<Instance<P>, InstanceError>)
      requires Valid()
      modifies this`currentPort, this`instances, processor`clients
      ensures Valid() && r.Ok?
      ensures currentPort == old(currentPort) + 1 && currentPort == basePort + |processor.clients|
      ensures var inst := r.value;
        fresh(inst) && instances == old(instances)[currentPort := inst] && |instances| == |old(instances)| + 1 &&
        inst.port == currentPort && inst.id == IntToString(currentPort) &&
        inst.url == UrlFor(currentPort) && inst.color == colorForId(inst.id) &&
        processor.clients == old(processor.clients) + [inst.webXdc] &&
        inst.webXdc.processor == processor && inst.webXdc.State() == ClientState(inst.id, false, false, None, 0)
    {
      currentPort := currentPort + 1;
      var port := currentPort;
      if port in instances {
        assert false;
        return Err(AlreadyHaveInstance(port));
      }
      var instance := Register(port);
      r := Ok(instance);
      forall k | 0 <= k < |processor.clients|
        ensures Registered(k)
      {
        if k < |old(processor.clients)| {
          assert old(Registered(k));
        }
      }
    }

    /** The part of `add` past the guard: a new broker client with the port's id, and the
        instance around it registered under the port. */
    method Register(port: int) returns (inst: Instance<P>)
      requires processor.Valid()
      modifies this`instances, processor`clients
      ensures processor.Valid()
      ensures fresh(inst) && instances == old(instances)[port := inst]
      ensures processor.clients == old(processor.clients) + [inst.webXdc]
      ensures inst.port == port && inst.id == IntToString(port) && inst.url == UrlFor(port) && inst.color == colorForId(inst.id)
      ensures inst.webXdc.processor == processor && inst.webXdc.State() == ClientState(inst.id, false, false, None, 0)
    {
      var client := processor.CreateClient(IntToString(port));
      inst := new Instance(port, client, colorForId);
      instances := instances[port := inst];
    }

    /** The distinct ports the registry hands out give its clients distinct ids. */
    lemma ClientIdsDistinct()
      requires Valid()
      ensures IdsDistinct(processor.States())
    {
      var cs := processor.States();
      forall k | 0 <= k < |cs|
        ensures cs[k].id == IntToString(basePort + k + 1)
      {
        assert Registered(k);
      }
      PortIdsDistinct(cs, basePort);
    }

    /** The socket handler of the instance at `port`: dispatches one parsed message. A
        `sendUpdate` goes to the broker, a `setUpdateListener` connects the instance's client
        from the given serial, a `requestInfo` is answered with the app's name and the
        instance's colour, and anything else is an error that changes nothing. */
    method HandleMessage(port: int, m: Inbound<P>) returns (r: Result<Option<Reply>, InstanceError>)
      requires Valid() && port in instances
      modifies instances[port].webXdc, processor`currentSerial, processor`updates, processor`messages,
        processor`clearClientIds, processor`calls
      ensures Valid()
      ensures r.Err? <==> Dispatch(m).Err?
      ensures r.Err? ==> r.error == UnknownMessage(m.msgType)
      ensures r.Ok? && r.value.Some? <==> IsRequestInfoMessage(m)
      ensures IsRequestInfoMessage(m) ==> r.value.value == Info(appName, instances[port].color)
      ensures var c := instances[port].webXdc;
        !IsSendUpdateMessage(m) && !IsSetUpdateListenerMessage(m) ==>
          processor.updates == old(processor.updates) && processor.messages == old(processor.messages) &&
          processor.calls == old(processor.calls) && processor.clearClientIds == old(processor.clearClientIds) &&
          c.State() == old(c.State())
      ensures var c := instances[port].webXdc;
        IsSendUpdateMessage(m) ==>
          c.State() == old(c.State()) && processor.clearClientIds == old(processor.clearClientIds) &&
          processor.updates == old(processor.updates) + [ReceivedUpdate(m.update, |processor.updates|, |processor.updates|)] &&
          processor.messages == old(processor.messages) + [Sent(c.id, processor.updates[|processor.updates| - 1], m.descr)] +
            LiveReceipts(processor.States(), |processor.clients|, processor.updates[|processor.updates| - 1]) &&
          processor.calls == old(processor.calls) +
            LiveDeliveries(processor.States(), |processor.clients|, processor.updates[|processor.updates| - 1])
      ensures var c := instances[port].webXdc;
        IsSetUpdateListenerMessage(m) ==>
          c.updateSerial == Some(m.serial) && c.hasUpdateListener && c.hasClearListener &&
          c.connections == old(c.connections) + 1 && processor.updates == old(processor.updates) &&
          processor.clearClientIds == old(processor.clearClientIds) + {c.id} &&
          processor.messages == old(processor.messages) +
            (if c.id in old(processor.clearClientIds) then [] else [Message.Clear(c.id)]) &&
          processor.calls == old(processor.calls) +
            (if c.id in old(processor.clearClientIds) then [] else [ClearCall(c.id, c.connections)]) +
            [UpdateCall(c.id, c.connections, CatchUpBatch(processor.updates, m.serial))]
    {
      var instance := instances[port];
      assert Registered(port - basePort - 1);
      if IsSendUpdateMessage(m) {
        instance.webXdc.SendUpdate(m.update, m.descr);
        r := Ok(None);
      } else if IsSetUpdateListenerMessage(m) {
        instance.webXdc.Connect(m.serial);
        r := Ok(None);
      } else if IsRequestInfoMessage(m) {
        r := Ok(Some(Info(appName, instance.color)));
      } else {
        r := Err(UnknownMessage(m.msgType));
      }
    }

    /** Resets the broker. Because the ids are distinct, every client that has a clear
        listener is notified exactly once, and no other client is. */
    method Clear()
      requires Valid()
      modifies processor`clearClientIds, processor`updates, processor`messages, processor`currentSerial, processor`calls
      ensures Valid()
      ensures processor.updates == [] && processor.messages == [] && processor.currentSerial == 0
      ensures var cs := processor.States();
        processor.calls == old(processor.calls) + ResetCalls(cs, |cs|) &&
        processor.clearClientIds == ResetIds(cs, |cs|) &&
        (forall k :: 0 <= k < |cs| ==> (NotifiedOnReset(cs, k) <==> cs[k].hasClearListener)) &&
        (forall k :: 0 <= k < |cs| ==> (cs[k].id in processor.clearClientIds <==> cs[k].hasClearListener))
    {
      processor.Clear();
      ClientIdsDistinct();
      ResetWithDistinctIds(processor.States());
    }
  }
}
