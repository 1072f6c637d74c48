/** The in-memory party store (`mockStore`): parties by room id, listeners per room,
    and the notifications it sends them.

    Callbacks are opaque to the store, so a callback is an identifier here and the
    store's calls of callbacks are recorded, in order, as notifications holding the
    party value passed. Room ids, message ids and timestamps come from randomness and
    the clock in the source and are parameters here. */
module MockStore {
  import opened Wrappers
  import opened Seqs

  datatype PartyType = Movie | Music

  datatype Message = Message(id: string, username: string, text: string, timestamp: int)

  datatype WatchParty = WatchParty(
    id: string,
    title: string,
    partyType: PartyType,
    videoUrl: string,
    hostUsername: string,
    isPlaying: bool,
    currentTime: int,
    participants: seq<string>,
    messages: seq<Message>)

  /** One call `callback(party)` made by the store. */
  datatype Notification = Notification(callback: nat, party: WatchParty)

  /** A new party as `createParty` builds it: stopped at the start, with the host as
      the only participant and no messages. */
  function NewParty(id: string, title: string, partyType: PartyType, videoUrl: string, host: string): WatchParty
  {
    WatchParty(id, title, partyType, videoUrl, host, false, 0, [host], [])
  }

  function Joined(p: WatchParty, username: string): WatchParty
  {
    p.(participants := AddOnce(p.participants, username))
  }

  function Left(p: WatchParty, username: string): WatchParty
  {
    p.(participants := RemoveAll(p.participants, username))
  }

  /** Joining and leaving change only who is in the party: a user is in after
      joining iff it was in or is the joiner, and in after leaving iff it was in and
      is not the leaver. */
  lemma MembershipAfter(p: WatchParty, u: string, v: string)
    ensures v in Joined(p, u).participants <==> v in p.participants || v == u
    ensures v in Left(p, u).participants <==> v in p.participants && v != u
    ensures Joined(p, u).(participants := p.participants) == p
    ensures Left(p, u).(participants := p.participants) == p
  {
    assert v in Left(p, u).participants <==> multiset(Left(p, u).participants)[v] > 0;
    assert v in p.participants <==> multiset(p.participants)[v] > 0;
  }

  /** A user not yet in the party who joins and then leaves leaves it as it was. */
  lemma LeaveUndoesJoin(p: WatchParty, u: string)
    requires u !in p.participants
    ensures Left(Joined(p, u), u) == p
  {
    RemoveUndoesAdd(p.participants, u);
  }

  /** Joining twice is joining once. */
  lemma JoinIdempotent(p: WatchParty, u: string)
    ensures Joined(Joined(p, u), u) == Joined(p, u)
  {
  }

  /** The calls `notifyListeners` makes: each listener in order, with the party. */
  function Deliveries(callbacks: seq<nat>, party: WatchParty): (r: seq<Notification>)
    ensures |r| == |callbacks|
    ensures forall i :: 0 <= i < |r| ==> r[i] == Notification(callbacks[i], party)
  {
    if callbacks == [] then [] else [Notification(callbacks[0], party)] + Deliveries(callbacks[1..], party)
  }

  /** A callback is called by a notification iff it is among the room's listeners,
      and every call passes that room's party. */
  lemma NotifiedIffListening(callbacks: seq<nat>, party: WatchParty, n: Notification)
    ensures n in Deliveries(callbacks, party) <==> n.callback in callbacks && n.party == party
  {
    if n.callback in callbacks && n.party == party {
      var i :| 0 <= i < |callbacks| && callbacks[i] == n.callback;
      assert Deliveries(callbacks, party)[i] == n;
    }
  }

  /** Once a callback is unsubscribed from a room, no notification for that room
      calls it. */
  lemma UnsubscribedNeverCalled(callbacks: seq<nat>, cb: nat, party: WatchParty)
    ensures forall n :: n in Deliveries(RemoveAll(callbacks, cb), party) ==> n.callback != cb
  {
    forall n | n in Deliveries(RemoveAll(callbacks, cb), party)
      ensures n.callback != cb
    {
      NotifiedIffListening(RemoveAll(callbacks, cb), party, n);
    }
  }

  class Store {
    var parties: map<string, WatchParty>
    var listeners: map<string, seq<nat>>
    var notifications: seq<Notification>

    /** Every party is filed under its own id and lists each participant once; every
        listener set holds each callback once. */
    ghost predicate Valid()
      reads this
    {
      && (forall k :: k in parties ==> parties[k].id == k && NoDup(parties[k].participants))
      && (forall k :: k in listeners ==> NoDup(listeners[k]))
    }

    function ListenersOf(id: string): seq<nat>
      reads this
    {
      if id in listeners then listeners[id] else []
    }

    constructor ()
      ensures Valid() && parties == map[] && listeners == map[] && notifications == []
    {
      parties := map[];
      listeners := map[];
      notifications := [];
    }

    /** `createParty` with the generated room id `id`. An existing party under the
        same id is replaced. Nobody is notified. */
    method CreateParty(id: string, title: string, partyType: PartyType, videoUrl: string, host: string)
      returns (party: WatchParty)
      requires Valid()
      modifies this
      ensures Valid()
      ensures party.id == id && party.title == title && party.partyType == partyType
      ensures party.videoUrl == videoUrl && party.hostUsername == host
      ensures !party.isPlaying && party.currentTime == 0 && party.participants == [host] && party.messages == []
      ensures parties == old(parties)[id := party]
      ensures listeners == old(listeners) && notifications == old(notifications)
    {
      party := NewParty(id, title, partyType, videoUrl, host);
      parties := parties[id := party];
    }

    function GetParty(id: string): (r: Option<WatchParty>)
      reads this
      ensures r.Some? <==> id in parties
      ensures r.Some? ==> r.value == parties[id]
    {
      if id in parties then Some(parties[id]) else None
    }

    method NotifyListeners(partyId: string, party: WatchParty)
      modifies this
      ensures notifications == old(notifications) + Deliveries(ListenersOf(partyId), party)
      ensures parties == old(parties) && listeners == old(listeners)
    {
      var callbacks := ListenersOf(partyId);
      var i := 0;
      while i < |callbacks|
        invariant 0 <= i <= |callbacks|
        invariant notifications == old(notifications) + Deliveries(callbacks[..i], party)
        invariant parties == old(parties) && listeners == old(listeners)
      {
        assert callbacks[..i + 1] == callbacks[..i] + [callbacks[i]];
        DeliveriesAppend(callbacks[..i], callbacks[i], party);
        notifications := notifications + [Notification(callbacks[i], party)];
        i := i + 1;
      }
      assert callbacks[..i] == callbacks;
    }

    /** `joinParty`: false for an unknown room; a new participant is appended and the
        room's listeners are told; a present one changes nothing. */
    method JoinParty(id: string, username: string) returns (ok: bool)
      requires Valid()
      modifies this
      ensures Valid() && listeners == old(listeners)
      ensures ok <==> id in old(parties)
      ensures ok && username !in old(parties)[id].participants ==>
                parties == old(parties)[id := Joined(old(parties)[id], username)] &&
                notifications == old(notifications) + Deliveries(ListenersOf(id), parties[id])
      ensures !ok || username in old(parties)[id].participants ==>
                parties == old(parties) && notifications == old(notifications)
    {
      if id !in parties {
        return false;
      }
      var party := parties[id];
      if username !in party.participants {
        party := Joined(party, username);
        parties := parties[id := party];
        NotifyListeners(id, party);
      }
      return true;
    }

    /** `leaveParty`: every occurrence of the user is removed and the listeners are
        told, even when the user was not there. */
    method LeaveParty(id: string, username: string)
      requires Valid()
      modifies this
      ensures Valid() && listeners == old(listeners)
      ensures id in old(parties) ==>
                parties == old(parties)[id := Left(old(parties)[id], username)] &&
                notifications == old(notifications) + Deliveries(ListenersOf(id), parties[id])
      ensures id !in old(parties) ==> parties == old(parties) && notifications == old(notifications)
    {
      if id !in parties {
        return;
      }
      var party := Left(parties[id], username);
      RemoveAllKeepsNoDup(parties[id].participants, username);
      parties := parties[id := party];
      NotifyListeners(id, party);
    }

    method UpdatePlaybackState(id: string, isPlaying: bool, currentTime: int)
      requires Valid()
      modifies this
      ensures Valid() && listeners == old(listeners)
      ensures id in old(parties) ==>
                parties == old(parties)[id := old(parties)[id].(isPlaying := isPlaying, currentTime := currentTime)] &&
                notifications == old(notifications) + Deliveries(ListenersOf(id), parties[id])
      ensures id !in old(parties) ==> parties == old(parties) && notifications == old(notifications)
    {
      if id !in parties {
        return;
      }
      var party := parties[id].(isPlaying := isPlaying, currentTime := currentTime);
      parties := parties[id := party];
      NotifyListeners(id, party);
    }

    /** `sendMessage` with the generated message id `msgId` and the clock reading `now`. */
    method SendMessage(id: string, username: string, text: string, msgId: string, now: int)
      requires Valid()
      modifies this
      ensures Valid() && listeners == old(listeners)
      ensures id in old(parties) ==>
                parties == old(parties)[id := old(parties)[id].(messages :=
                  old(parties)[id].messages + [Message(msgId, username, text, now)])] &&
                notifications == old(notifications) + Deliveries(ListenersOf(id), parties[id])
      ensures id !in old(parties) ==> parties == old(parties) && notifications == old(notifications)
    {
      if id !in parties {
        return;
      }
      var party := parties[id];
      party := party.(messages := party.messages + [Message(msgId, username, text, now)]);
      parties := parties[id := party];
      NotifyListeners(id, party);
    }

    /** `subscribe`: the room's listener set is created when missing and the callback
        added once. */
    method Subscribe(partyId: string, callback: nat)
      requires Valid()
      modifies this
      ensures Valid() && parties == old(parties) && notifications == old(notifications)
      ensures listeners == old(listeners)[partyId := AddOnce(old(ListenersOf(partyId)), callback)]
    {
      var current := ListenersOf(partyId);
      listeners := listeners[partyId := AddOnce(current, callback)];
    }

    /** The unsubscribe function `subscribe` returns: the callback leaves the room's
        set, which stays in the map even when it becomes empty. */
    method Unsubscribe(partyId: string, callback: nat)
      requires Valid()
      modifies this
      ensures Valid() && parties == old(parties) && notifications == old(notifications)
      ensures partyId in old(listeners) ==>
                listeners == old(listeners)[partyId := RemoveAll(old(listeners)[partyId], callback)]
      ensures partyId !in old(listeners) ==> listeners == old(listeners)
    {
      if partyId in listeners {
        RemoveAllKeepsNoDup(listeners[partyId], callback);
        listeners := listeners[partyId := RemoveAll(listeners[partyId], callback)];
      }
    }
  }

  lemma DeliveriesAppend(cbs: seq<nat>, cb: nat, party: WatchParty)
    ensures Deliveries(cbs + [cb], party) == Deliveries(cbs, party) + [Notification(cb, party)]
  {
  }
}
