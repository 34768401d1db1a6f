/**
 * The dashboard's message store of frontend/store.ts: the messages the backend reports,
 * in arrival order, with the queries the dashboard runs over them. The reactive store
 * library is not modelled; the store is a plain mutable sequence.
 */
module Store {
  import opened Wrappers

  /** A message as the dashboard sees it: the instance it concerns, its `type`
      (`"sent"`, `"received"`, `"clear"`, ...) and the rest of the record. */
  datatype Message<P> = Message(msgType: string, instanceId: string, body: P)

  /** `isUpdateMessage`: the message reports an update that was sent or received. */
  predicate IsUpdateMessage<P>(m: Message<P>) {
    m.msgType == "sent" || m.msgType == "received"
  }

  /** The test `getMessages` filters with: an absent argument accepts every message, a
      present one only messages whose field equals it. */
  function Query<P>(instanceId: Option<string>, msgType: Option<string>): Message<P> -> bool {
    (m: Message<P>) => (instanceId.None? || m.instanceId == instanceId.value) && (msgType.None? || m.msgType == msgType.value)
  }

  /** The update messages of one instance. */
  function UpdatesOf<P>(instanceId: string): Message<P> -> bool {
    (m: Message<P>) => m.instanceId == instanceId && IsUpdateMessage(m)
  }

  /** `Array.prototype.filter`: the messages of `s` that `keep` accepts, in their order. */
  function Filter<P>(s: seq<Message<P>>, keep: Message<P> -> bool): (r: seq<Message<P>>)
    ensures |r| <= |s|
  {
    if s == [] then []
    else
      var rest := Filter(s[..|s| - 1], keep);
      if keep(s[|s| - 1]) then rest + [s[|s| - 1]] else rest
  }

  /** Filtering a sequence with one more message at the end. */
  lemma FilterAppend<P>(s: seq<Message<P>>, m: Message<P>, keep: Message<P> -> bool)
    ensures Filter(s + [m], keep) == Filter(s, keep) + (if keep(m) then [m] else [])
  {
    assert (s + [m])[..|s|] == s;
  }

  /** A test that accepts every message keeps the whole sequence. */
  lemma {:induction false} FilterKeepsAll<P>(s: seq<Message<P>>, keep: Message<P> -> bool)
    requires forall m :: keep(m)
    ensures Filter(s, keep) == s
  {
    if s != [] {
      FilterKeepsAll(s[..|s| - 1], keep);
      assert s[..|s| - 1] + [s[|s| - 1]] == s;
    }
  }

  /** The filter result is the subsequence of `s` at the positions `idx`, which increase
      and are exactly the positions of the messages `keep` accepts. */
  lemma {:induction false} FilterIsSubsequence<P>(s: seq<Message<P>>, keep: Message<P> -> bool)
    returns (idx: seq<nat>)
    ensures |idx| == |Filter(s, keep)|
    ensures forall j :: 0 <= j < |idx| ==> idx[j] < |s| && Filter(s, keep)[j] == s[idx[j]]
    ensures forall j, k :: 0 <= j < k < |idx| ==> idx[j] < idx[k]
    ensures forall i :: 0 <= i < |s| ==> (keep(s[i]) <==> i in idx)
  {
    if s == [] {
      idx := [];
    } else {
      var n := |s| - 1;
      var prefix := s[..n];
      var rest := FilterIsSubsequence(prefix, keep);
      assert forall i :: 0 <= i < n ==> s[i] == prefix[i];
      if keep(s[n]) {
        idx := rest + [n];
        assert Filter(s, keep) == Filter(prefix, keep) + [s[n]];
      } else {
        idx := rest;
        assert n !in rest;
      }
    }
  }

  /** The `sent` and `received` tallies of an instance together count its update messages. */
  lemma {:induction false} SentPlusReceived<P>(s: seq<Message<P>>, instanceId: string)
    ensures |Filter(s, Query(Some(instanceId), Some("sent")))| + |Filter(s, Query(Some(instanceId), Some("received")))|
      == |Filter(s, UpdatesOf(instanceId))|
  {
    if s != [] {
      SentPlusReceived(s[..|s| - 1], instanceId);
    }
  }

  /** The store behind the dashboard. */
  class MessageStore<P> {
    var state: seq<Message<P>>

    constructor ()
      ensures state == []
    {
      state := [];
    }

    /** `addMessage`: appends the message after every earlier one. */
    method AddMessage(m: Message<P>)
      modifies this
      ensures state == old(state) + [m]
    {
      state := state + [m];
    }

    /** `clearMessages`: forgets every message. */
    method ClearMessages()
      modifies this
      ensures state == []
    {
      state := [];
    }

    /** `getMessages`: the whole state when neither argument is given, and otherwise the
        messages that match the given ones, in store order. */
    function GetMessages(instanceId: Option<string>, msgType: Option<string>): (r: seq<Message<P>>)
      reads this
      ensures r == Filter(state, Query(instanceId, msgType))
      ensures instanceId.None? && msgType.None? ==> r == state
    {
      if instanceId.None? && msgType.None? then
        FilterKeepsAll(state, Query(instanceId, msgType));
        state
      else
        Filter(state, Query(instanceId, msgType))
    }

    /** The loop `sent` and `received` share: the number of messages of the given type that
        concern the given instance. */
    method Count(msgType: string, instanceId: string) returns (r: nat)
      ensures r == |GetMessages(Some(instanceId), Some(msgType))| && r <= |state|
    {
      var keep := Query(Some(instanceId), Some(msgType));
      r := 0;
      var i := 0;
      while i < |state|
        invariant 0 <= i <= |state|
        invariant r == |Filter(state[..i], keep)|
      {
        FilterAppend(state[..i], state[i], keep);
        assert state[..i + 1] == state[..i] + [state[i]];
        if state[i].msgType == msgType && state[i].instanceId == instanceId {
          r := r + 1;
        }
        i := i + 1;
      }
      assert state[..i] == state;
    }

    /** `sent`: how many messages report an update the instance sent. */
    method Sent(instanceId: string) returns (r: nat)
      ensures r == |GetMessages(Some(instanceId), Some("sent"))| && r <= |state|
    {
      r := Count("sent", instanceId);
    }

    /** `received`: how many messages report an update the instance received. */
    method Received(instanceId: string) returns (r: nat)
      ensures r == |GetMessages(Some(instanceId), Some("received"))| && r <= |state|
    {
      r := Count("received", instanceId);
    }
  }

  /** After `clearMessages` every query is empty, so `sent` and `received` are 0 for every id. */
  lemma ClearedStoreIsEmpty<P>(store: MessageStore<P>, instanceId: Option<string>, msgType: Option<string>)
    requires store.state == []
    ensures store.GetMessages(instanceId, msgType) == []
  {
  }
}
