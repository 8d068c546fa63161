/** The relay server as objects: the room the runtime hands to the server, and the
    server whose message handler sends frames through it.
 */
module PartyServer {
  import opened RelaySpec

  /** One room (`Party.Party`): its current members and the frames sent to each
      connection so far. Joining and leaving are done by the runtime and are not
      modelled; `members` only changes from outside this model. */
  class Party {
    var members: set<ConnId>
    var outbox: Outboxes

    ghost predicate Valid()
      reads this
    {
      members <= outbox.Keys
    }

    constructor (members: set<ConnId>, outbox: Outboxes)
      requires members <= outbox.Keys
      ensures Valid() && this.members == members && this.outbox == outbox
    {
      this.members := members;
      this.outbox := outbox;
    }

    /** `Connection.send(frame)` on the connection `id`. */
    method Send(id: ConnId, frame: Frame)
      requires Valid() && id in outbox
      modifies this
      ensures Valid() && members == old(members)
      ensures outbox == SendFrame(old(outbox), id, frame)
      ensures outbox[id] == old(outbox[id]) + [frame]
    {
      outbox := SendFrame(outbox, id, frame);
    }

    /** `Party.broadcast(msg, without)`: every member not listed in `without` is sent `msg`. */
    method Broadcast(msg: Frame, without: seq<ConnId>)
      requires Valid()
      modifies this
      ensures Valid() && members == old(members)
      ensures outbox == BroadcastFrame(old(outbox), members, msg, without)
    {
      outbox := BroadcastFrame(outbox, members, msg, without);
    }
  }

  class PhonePartyServer {
    const party: Party

    constructor (party: Party)
      ensures this.party == party
    {
      this.party := party;
    }

    /** Handles one text frame from the member `sender`. */
    method OnMessage(message: string, sender: ConnId)
      requires party.Valid() && sender in party.members
      modifies party
      ensures party.Valid() && party.members == old(party.members)
      ensures party.outbox == Dispatch(old(party.outbox), party.members, message, sender)
      ensures message == Ping ==> party.outbox[sender] == old(party.outbox[sender]) + [Pong]
      ensures message == Ping ==>
        forall c :: c in party.outbox && c != sender ==> party.outbox[c] == old(party.outbox[c])
      ensures message != Ping ==> party.outbox[sender] == old(party.outbox[sender])
      ensures message != Ping ==>
        forall c :: c in party.members && c != sender ==> party.outbox[c] == old(party.outbox[c]) + [message]
      ensures forall c :: c in party.outbox && c !in party.members ==> party.outbox[c] == old(party.outbox[c])
    {
      if message == Ping {
        party.Send(sender, Pong);
        return;
      }
      // every connection but the sender
      party.Broadcast(message, [sender]);
    }
  }

  /** A room with members A, B and C beside a second room with member D: a payload from A,
      malformed or not, reaches B and C only, and a ping from B is answered to B alone. */
  method RoomsScenario()
  {
    var a, b, c, d := "A", "B", "C", "D";
    assert a[0] != b[0] && a[0] != c[0] && b[0] != c[0];
    var room := new Party({a, b, c}, map[a := [], b := [], c := []]);
    var other := new Party({d}, map[d := []]);
    var server := new PhonePartyServer(room);
    var junk := "{px:";
    assert junk[0] != Ping[0];
    server.OnMessage(junk, a);
    assert room.outbox[a] == [] && room.outbox[b] == [junk] && room.outbox[c] == [junk];
    server.OnMessage(Ping, b);
    assert room.outbox[b] == [junk] + [Pong];
    assert room.outbox[a] == [] && room.outbox[c] == [junk];
    assert other.outbox[d] == [];
  }
}
