/** One node of the gossip example: `cmd/gossip/gossip/protocol.go`. */
module Gossip {
  import opened Hosts
  import opened Bytes
  import opened GossipCodec
  import Membership

  datatype Packet = Packet(to: Host, msg: Message)

  /** What one event makes a node deliver and send. */
  datatype Effect = Effect(delivered: seq<Message>, sent: seq<Packet>)

  function Excluding(peers: seq<Host>, exclude: Host): seq<Host> {
    if peers == [] then []
    else
      var rest := Excluding(peers[..|peers| - 1], exclude);
      if peers[|peers| - 1] != exclude then rest + [peers[|peers| - 1]] else rest
  }

  function Fanout(m: Message, peers: seq<Host>): seq<Packet> {
    seq(|peers|, k requires 0 <= k < |peers| => Packet(peers[k], m))
  }

  /** `disseminate`: deliver locally, then push to every known peer. */
  function Originated(view: seq<Host>, m: Message): Effect {
    Effect([m], Fanout(m, view))
  }

  /** `handleInbound`: a known message is dropped, a new one delivered and pushed on. */
  function Received(seen: set<nat>, view: seq<Host>, m: Message, sender: Host): Effect {
    if m.id in seen then Effect([], []) else Effect([m], Fanout(m, Excluding(view, sender)))
  }

  /** `handleViewChanged`: append an added host unless present, delete a removed one. */
  function ViewAfter(view: seq<Host>, n: Membership.Note): seq<Host> {
    match n
    case Added(h) => if h in view then view else view + [h]
    case Removed(h) => Excluding(view, h)
  }

  /** `excluding` keeps exactly the other peers. */
  lemma {:induction false} ExcludingMembers(peers: seq<Host>, exclude: Host)
    ensures forall h :: h in Excluding(peers, exclude) <==> h in peers && h != exclude
    ensures |Excluding(peers, exclude)| <= |peers|
  {
    if peers == [] {
    } else {
      ExcludingMembers(peers[..|peers| - 1], exclude);
      assert peers == peers[..|peers| - 1] + [peers[|peers| - 1]];
    }
  }

  class Protocol {
    var seen: set<nat>
    var view: seq<Host>
    var delivered: seq<Message>
    var sent: seq<Packet>

    constructor ()
      ensures seen == {} && view == [] && delivered == [] && sent == []
    {
      seen, view, delivered, sent := {}, [], [], [];
    }

    method SendAll(m: Message, peers: seq<Host>)
      modifies this`sent
      ensures sent == old(sent) + Fanout(m, peers)
    {
      var k := 0;
      while k < |peers|
        invariant k <= |peers|
        invariant sent == old(sent) + Fanout(m, peers)[..k]
      {
        sent := sent + [Packet(peers[k], m)];
        k := k + 1;
      }
    }

    static method Others(peers: seq<Host>, exclude: Host) returns (out: seq<Host>)
      ensures out == Excluding(peers, exclude)
    {
      out := [];
      assert peers[..0] == [];
      for k := 0 to |peers|
        invariant out == Excluding(peers[..k], exclude)
      {
        assert peers[..k + 1][..k] == peers[..k];
        if peers[k] != exclude {
          out := out + [peers[k]];
        }
      }
      assert peers[..|peers|] == peers;
    }

    /** `handleInitialView`: a reply replaces the view, an error leaves it alone. */
    method HandleInitialView(reply: Option<seq<Host>>)
      modifies this`view
      ensures view == if reply.Some? then reply.value else old(view)
    {
      if reply == None { return; }
      view := reply.value;
    }

    method HandleViewChanged(n: Membership.Note)
      modifies this`view
      ensures view == ViewAfter(old(view), n)
    {
      match n
      case Added(h) =>
        if h !in view {
          view := view + [h];
        }
      case Removed(h) => view := Others(view, h);
    }

    method Disseminate(m: Message)
      modifies this`seen, this`delivered, this`sent
      ensures seen == old(seen) + {m.id}
      ensures delivered == old(delivered) + Originated(view, m).delivered
      ensures sent == old(sent) + Originated(view, m).sent
    {
      seen := seen + {m.id};
      delivered := delivered + [m];
      SendAll(m, view);
    }

    method HandleInbound(m: Message, sender: Host)
      modifies this`seen, this`delivered, this`sent
      ensures seen == old(seen) + {m.id}
      ensures delivered == old(delivered) + Received(old(seen), view, m, sender).delivered
      ensures sent == old(sent) + Received(old(seen), view, m, sender).sent
    {
      if m.id in seen {
        assert seen == seen + {m.id};
        return;
      }
      seen := seen + {m.id};
      delivered := delivered + [m];
      var others := Others(view, sender);
      SendAll(m, others);
    }
  }
}
