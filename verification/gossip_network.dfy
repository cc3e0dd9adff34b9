/** The gossip network: nodes with fixed views running the protocol of module `Gossip`,
    copies of messages in flight, and losses. Messages travel in any order. The sender a
    handler is told is the transport host of the connection: the true sender's host where
    the receiver dialled it, some host outside the receiver's view where it was accepted. Any
    other label is allowed here too, and what it leaves out is recorded. */
module GossipNetwork {
  import opened Hosts
  import opened GossipCodec
  import opened Gossip

  datatype Copy = Copy(src: Host, dst: Host, msg: Message)

  /** Everything about one message ID: who minted it and for what, the copies in flight, and
      the history of sends, receives, losses and deliveries. `missed` holds
      the hosts a copy to which was lost, or which were left out of a fan-out because the copy
      was mislabelled as theirs. */
  datatype Rumor = Rumor(
    origin: Host, msg: Message, flight: multiset<Copy>,
    sent: nat, received: nat, lost: nat, missed: set<Host>, delivered: seq<(Host, Message)>)

  datatype Net = Net(seen: map<Host, set<nat>>, rumors: map<nat, Rumor>)

  type Views = map<Host, seq<Host>>

  datatype Step =
    | Originate(node: Host, msg: Message)
    | Receive(copy: Copy, sender: Host)
    | Lose(copy: Copy)

  /** Every view mentions nodes of the network only. */
  ghost predicate Closed(views: Views) {
    forall n, h :: n in views && h in views[n] ==> h in views
  }

  function Boot(views: Views): Net {
    Net(map n | n in views :: {}, map[])
  }

  predicate InFlight(net: Net, c: Copy) {
    c.msg.id in net.rumors && c in net.rumors[c.msg.id].flight
  }

  /** IDs are fresh when minted. */
  predicate Enabled(views: Views, net: Net, step: Step) {
    match step
    case Originate(n, m) => n in views && n in net.seen && m.id !in net.rumors
    case Receive(c, sender) =>
      InFlight(net, c) && c.dst in views && c.dst in net.seen
    case Lose(c) => InFlight(net, c)
  }

  function Copies(src: Host, packets: seq<Packet>): multiset<Copy> {
    multiset(seq(|packets|, k requires 0 <= k < |packets| => Copy(src, packets[k].to, packets[k].msg)))
  }

  function Tagged(n: Host, ms: seq<Message>): seq<(Host, Message)> {
    seq(|ms|, k requires 0 <= k < |ms| => (n, ms[k]))
  }

  /** Node `n` performs the effect of its handler on rumor `r`. */
  function Spread(r: Rumor, n: Host, e: Effect): Rumor {
    r.(flight := r.flight + Copies(n, e.sent), sent := r.sent + |e.sent|,
       delivered := r.delivered + Tagged(n, e.delivered))
  }

  function Note(net: Net, n: Host, r: Rumor): Net
    requires n in net.seen
  {
    Net(net.seen[n := net.seen[n] + {r.msg.id}], net.rumors[r.msg.id := r])
  }

  /** Whom a node that learns the rumor leaves out although they did not send it. */
  function LeftOut(ids: set<nat>, view: seq<Host>, c: Copy, sender: Host): set<Host> {
    if c.msg.id !in ids && sender != c.src && sender in view then {sender} else {}
  }

  function Taken(r: Rumor, c: Copy, leftOut: set<Host>): Rumor {
    r.(flight := r.flight - multiset{c}, received := r.received + 1, missed := r.missed + leftOut)
  }

  function Lost(r: Rumor, c: Copy): Rumor {
    r.(flight := r.flight - multiset{c}, lost := r.lost + 1, missed := r.missed + {c.dst})
  }

  /** The rumor after node `c.dst`, which knows `ids`, takes copy `c` labelled `sender`. */
  function Handled(r: Rumor, ids: set<nat>, view: seq<Host>, c: Copy, sender: Host): Rumor {
    Spread(Taken(r, c, LeftOut(ids, view, c, sender)), c.dst, Received(ids, view, c.msg, sender))
  }

  /** One step; a step that is not enabled changes nothing. */
  function Next(views: Views, net: Net, step: Step): Net {
    if !Enabled(views, net, step) then net else
    match step
    case Originate(n, m) =>
      Note(net, n, Spread(Rumor(n, m, multiset{}, 0, 0, 0, {}, []), n, Originated(views[n], m)))
    case Receive(c, sender) =>
      var id, r := c.msg.id, net.rumors[c.msg.id];
      Net(net.seen[c.dst := net.seen[c.dst] + {id}],
          net.rumors[id := Handled(r, net.seen[c.dst], views[c.dst], c, sender)])
    case Lose(c) =>
      net.(rumors := net.rumors[c.msg.id := Lost(net.rumors[c.msg.id], c)])
  }

  function Run(views: Views, steps: seq<Step>): Net {
    if steps == [] then Boot(views)
    else Next(views, Run(views, steps[..|steps| - 1]), steps[|steps| - 1])
  }

  // --- reachability and weights ----------------------------------------------------------------------

  ghost predicate IsPath(views: Views, path: seq<Host>) {
    && |path| > 0
    && var n := |path| - 1;
       path[n] in views && (n > 0 ==> IsPath(views, path[..n]) && path[n] in views[path[n - 1]])
  }

  ghost predicate Reachable(views: Views, a: Host, b: Host) {
    exists path :: IsPath(views, path) && path[0] == a && path[|path| - 1] == b
  }

  lemma ReachSelf(views: Views, a: Host)
    requires a in views
    ensures Reachable(views, a, a)
  {
    assert IsPath(views, [a]);
  }

  lemma ReachFurther(views: Views, a: Host, b: Host, c: Host)
    requires Reachable(views, a, b) && b in views && c in views && c in views[b]
    ensures Reachable(views, a, c)
  {
    var path :| IsPath(views, path) && path[0] == a && path[|path| - 1] == b;
    assert (path + [c])[..|path|] == path;
    assert IsPath(views, path + [c]);
  }

  /** The sum of the view sizes of a set of nodes. */
  ghost function Weight(views: Views, s: set<Host>): nat
    requires s <= views.Keys
  {
    if s == {} then 0 else
      var x :| x in s;
      |views[x]| + Weight(views, s - {x})
  }

  lemma {:induction false} WeightWithout(views: Views, s: set<Host>, x: Host)
    requires s <= views.Keys && x in s
    ensures Weight(views, s) == |views[x]| + Weight(views, s - {x})
    decreases s
  {
    var y :| y in s && Weight(views, s) == |views[y]| + Weight(views, s - {y});
    if y != x {
      WeightWithout(views, s - {y}, x);
      WeightWithout(views, s - {x}, y);
      assert s - {y} - {x} == s - {x} - {y};
    }
  }

  // --- the invariant -------------------------------------------------------------------------------------

  function SeenBy(views: Views, net: Net, id: nat): set<Host> {
    set n | n in views && n in net.seen && id in net.seen[n]
  }

  ghost predicate Headed(flight: multiset<Copy>, v: Host) {
    exists c :: c in flight && c.dst == v
  }

  /** Nodes that know the rumor are reachable from its origin, and copies run along view edges
      from nodes that know it, unaltered. */
  ghost predicate Grounded(views: Views, seen: set<Host>, r: Rumor) {
    && r.origin in seen
    && (forall n :: n in seen ==> n in views && Reachable(views, r.origin, n))
    && (forall c :: c in r.flight ==> c.msg == r.msg && c.src in seen && c.dst in views[c.src])
  }

  /** Every neighbour of a knowing node, except perhaps `but`, knows, is being told or is on
      record as missed. */
  ghost predicate CoveringBut(views: Views, seen: set<Host>, r: Rumor, but: set<Host>) {
    forall n, v :: n in seen && n in views && v in views[n] ==>
      v in seen || v in r.missed || v in but || Headed(r.flight, v)
  }

  /** Whoever was missed is reachable. */
  ghost predicate MissedReachable(views: Views, r: Rumor) {
    forall v :: v in r.missed ==> Reachable(views, r.origin, v)
  }

  ghost predicate Covering(views: Views, seen: set<Host>, r: Rumor) {
    CoveringBut(views, seen, r, {})
  }

  /** Each knowing node has delivered the rumor, unaltered, exactly once. */
  ghost predicate OncePerNode(seen: set<Host>, r: Rumor) {
    && (forall k :: 0 <= k < |r.delivered| ==> r.delivered[k].1 == r.msg && r.delivered[k].0 in seen)
    && (forall j, k :: 0 <= j < k < |r.delivered| ==> r.delivered[j].0 != r.delivered[k].0)
    && (forall n :: n in seen ==> (n, r.msg) in r.delivered)
  }

  /** Copies are conserved, and the views of knowing nodes pay for all sends. */
  ghost predicate Balanced(views: Views, seen: set<Host>, r: Rumor) {
    && r.sent == r.received + r.lost + |r.flight|
    && r.sent + Weight(views, views.Keys - seen) <= Weight(views, views.Keys)
  }

  ghost predicate RumorInv(views: Views, seen: set<Host>, r: Rumor) {
    && Grounded(views, seen, r) && Covering(views, seen, r) && MissedReachable(views, r)
    && OncePerNode(seen, r) && Balanced(views, seen, r)
  }

  ghost predicate NetInv(views: Views, net: Net) {
    && net.seen.Keys == views.Keys
    && (forall n, id :: n in net.seen && id in net.seen[n] ==> id in net.rumors)
    && (forall id :: id in net.rumors ==> Sound(views, net, id))
  }

  ghost predicate Sound(views: Views, net: Net, id: nat)
    requires id in net.rumors
  {
    net.rumors[id].msg.id == id && RumorInv(views, SeenBy(views, net, id), net.rumors[id])
  }

  lemma CopiesOf(src: Host, m: Message, peers: seq<Host>)
    ensures forall c :: c in Copies(src, Fanout(m, peers)) <==> c.src == src && c.msg == m && c.dst in peers
    ensures |Copies(src, Fanout(m, peers))| == |peers| == |Fanout(m, peers)|
  {
    var packets := Fanout(m, peers);
    var copies := seq(|packets|, k requires 0 <= k < |packets| => Copy(src, packets[k].to, packets[k].msg));
    forall c ensures c in copies <==> c.src == src && c.msg == m && c.dst in peers {
      if c.src == src && c.msg == m && c.dst in peers {
        var k :| 0 <= k < |peers| && peers[k] == c.dst;
        assert copies[k] == c;
      }
    }
  }

  /** Node `n` learns the rumor and tells `peers`. */
  function Learn(r: Rumor, n: Host, peers: seq<Host>): Rumor {
    Spread(r, n, Effect([r.msg], Fanout(r.msg, peers)))
  }

  lemma LearnGrounds(views: Views, seen: set<Host>, r: Rumor, n: Host, peers: seq<Host>)
    requires n in views && Reachable(views, r.origin, n) && (r.origin == n || r.origin in seen)
    requires forall x :: x in seen ==> x in views && Reachable(views, r.origin, x)
    requires forall c :: c in r.flight ==> c.msg == r.msg && c.src in seen && c.dst in views[c.src]
    requires forall v :: v in peers ==> v in views[n]
    ensures Grounded(views, seen + {n}, Learn(r, n, peers))
  {
    CopiesOf(n, r.msg, peers);
  }

  /** The peers left out know already or are on record, so telling the others covers the whole view. */
  lemma LearnCovers(views: Views, seen: set<Host>, r: Rumor, n: Host, peers: seq<Host>)
    requires n in views && CoveringBut(views, seen, r, {n})
    requires forall v :: v in views[n] && v !in peers ==> v in seen || v in r.missed
    ensures Covering(views, seen + {n}, Learn(r, n, peers))
  {
    var r', seen' := Learn(r, n, peers), seen + {n};
    CopiesOf(n, r.msg, peers);
    forall x, v | x in seen' && x in views && v in views[x]
      ensures v in seen' || v in r'.missed || Headed(r'.flight, v)
    {
      if x == n && v in peers {
        assert Copy(n, v, r.msg) in r'.flight;
      } else if x in seen && Headed(r.flight, v) {
        var c :| c in r.flight && c.dst == v;
        assert c in r'.flight;
      }
    }
  }

  lemma LearnDeliversOnce(seen: set<Host>, r: Rumor, n: Host, peers: seq<Host>)
    requires OncePerNode(seen, r) && n !in seen
    ensures OncePerNode(seen + {n}, Learn(r, n, peers))
  {
    assert Learn(r, n, peers).delivered == r.delivered + [(n, r.msg)];
  }

  lemma LearnBalances(views: Views, seen: set<Host>, r: Rumor, n: Host, peers: seq<Host>)
    requires Balanced(views, seen, r) && n in views && n !in seen && |peers| <= |views[n]|
    ensures Balanced(views, seen + {n}, Learn(r, n, peers))
  {
    CopiesOf(n, r.msg, peers);
    assert views.Keys - (seen + {n}) == views.Keys - seen - {n};
    WeightWithout(views, views.Keys - seen, n);
  }

  lemma OriginateKeeps(views: Views, n: Host, m: Message)
    requires Closed(views) && n in views
    ensures RumorInv(views, {n}, Learn(Rumor(n, m, multiset{}, 0, 0, 0, {}, []), n, views[n]))
  {
    var r := Rumor(n, m, multiset{}, 0, 0, 0, {}, []);
    ReachSelf(views, n);
    assert {} + {n} == {n} && views.Keys - {} == views.Keys;
    LearnGrounds(views, {}, r, n, views[n]);
    LearnCovers(views, {}, r, n, views[n]);
    LearnDeliversOnce({}, r, n, views[n]);
    LearnBalances(views, {}, r, n, views[n]);
  }

  /** Other copies stay headed where they were. */
  lemma StillHeaded(flight: multiset<Copy>, c: Copy, v: Host)
    requires Headed(flight, v) && v != c.dst
    ensures Headed(flight - multiset{c}, v)
  {
    var d :| d in flight && d.dst == v;
    assert d in flight - multiset{c};
  }

  /** Taking a copy uncovers at most its destination. */
  lemma TakenKeeps(views: Views, seen: set<Host>, r: Rumor, c: Copy, leftOut: set<Host>)
    requires RumorInv(views, seen, r) && c in r.flight
    ensures var r' := Taken(r, c, leftOut);
            && Grounded(views, seen, r') && CoveringBut(views, seen, r', {c.dst})
            && OncePerNode(seen, r') && Balanced(views, seen, r')
  {
    forall v | Headed(r.flight, v) && v != c.dst ensures Headed(Taken(r, c, leftOut).flight, v) {
      StillHeaded(r.flight, c, v);
    }
  }

  lemma FreshKeeps(views: Views, seen: set<Host>, r: Rumor, c: Copy, sender: Host, leftOut: set<Host>)
    requires Closed(views) && RumorInv(views, seen, r) && c in r.flight && c.dst !in seen && c.dst in views
    requires leftOut == if sender != c.src && sender in views[c.dst] then {sender} else {}
    ensures RumorInv(views, seen + {c.dst},
                     Learn(Taken(r, c, leftOut), c.dst, Excluding(views[c.dst], sender)))
  {
    var n, r' := c.dst, Taken(r, c, leftOut);
    TakenKeeps(views, seen, r, c, leftOut);
    ReachFurther(views, r.origin, c.src, n);
    if sender in views[n] { ReachFurther(views, r.origin, n, sender); }
    var peers := Excluding(views[n], sender);
    ExcludingMembers(views[n], sender);
    LearnGrounds(views, seen, r', n, peers);
    LearnCovers(views, seen, r', n, peers);
    LearnDeliversOnce(seen, r', n, peers);
    LearnBalances(views, seen, r', n, peers);
  }

  lemma DuplicateKeeps(views: Views, seen: set<Host>, r: Rumor, c: Copy)
    requires RumorInv(views, seen, r) && c in r.flight && c.dst in seen
    ensures RumorInv(views, seen, Spread(Taken(r, c, {}), c.dst, Effect([], [])))
  {
    TakenKeeps(views, seen, r, c, {});
    var r' := Taken(r, c, {});
    assert r'.missed == r.missed;
    assert Spread(r', c.dst, Effect([], [])) == r' by {
      assert r'.delivered + Tagged(c.dst, []) == r'.delivered;
      assert Copies(c.dst, []) == multiset{};
    }
  }

  lemma LoseKeeps(views: Views, seen: set<Host>, r: Rumor, c: Copy)
    requires Closed(views) && RumorInv(views, seen, r) && c in r.flight
    ensures RumorInv(views, seen, Lost(r, c))
  {
    ReachFurther(views, r.origin, c.src, c.dst);
    forall v | Headed(r.flight, v) && v != c.dst ensures Headed(Lost(r, c).flight, v) {
      StillHeaded(r.flight, c, v);
    }
  }

  /** A step changes one rumor, and who knows that one rumor. */
  ghost predicate Touches(views: Views, net: Net, net': Net, id: nat) {
    && net.seen.Keys == net'.seen.Keys == views.Keys
    && net'.rumors.Keys == net.rumors.Keys + {id}
    && (forall x :: x != id && x in net.rumors ==> net'.rumors[x] == net.rumors[x])
    && (forall n, x :: n in views && x != id ==> (x in net'.seen[n] <==> x in net.seen[n]))
  }

  lemma OthersStay(views: Views, net: Net, net': Net, id: nat, x: nat)
    requires Touches(views, net, net', id) && x != id && x in net.rumors && Sound(views, net, x)
    ensures Sound(views, net', x)
  {
    assert SeenBy(views, net', x) == SeenBy(views, net, x);
  }

  lemma OneRumor(views: Views, net: Net, net': Net, id: nat)
    requires NetInv(views, net) && Touches(views, net, net', id) && Sound(views, net', id)
    ensures NetInv(views, net')
  {
    forall x | x in net'.rumors ensures Sound(views, net', x) {
      if x != id { OthersStay(views, net, net', id, x); }
    }
    forall n, x | n in net'.seen && x in net'.seen[n] ensures x in net'.rumors {
      assert x != id ==> x in net.seen[n];
    }
  }

  lemma OriginateSound(views: Views, net: Net, n: Host, m: Message)
    requires Closed(views) && net.seen.Keys == views.Keys && Enabled(views, net, Originate(n, m))
    requires forall x :: x in net.seen ==> m.id !in net.seen[x]
    ensures var net' := Next(views, net, Originate(n, m)); Touches(views, net, net', m.id) && Sound(views, net', m.id)
  {
    var net' := Next(views, net, Originate(n, m));
    OriginateKeeps(views, n, m);
    assert SeenBy(views, net', m.id) == {n};
  }

  lemma HandledIs(r: Rumor, ids: set<nat>, view: seq<Host>, c: Copy, sender: Host)
    requires c.msg == r.msg
    ensures Handled(r, ids, view, c, sender)
         == if c.msg.id in ids then Spread(Taken(r, c, {}), c.dst, Effect([], []))
            else Learn(Taken(r, c, LeftOut(ids, view, c, sender)), c.dst, Excluding(view, sender))
  {
  }

  lemma FreshRumor(views: Views, seen: set<Host>, r: Rumor, ids: set<nat>, c: Copy, sender: Host)
    requires Closed(views) && RumorInv(views, seen, r) && c in r.flight && c.dst in views
    requires c.msg == r.msg && c.msg.id !in ids && c.dst !in seen
    ensures RumorInv(views, seen + {c.dst}, Handled(r, ids, views[c.dst], c, sender))
  {
    HandledIs(r, ids, views[c.dst], c, sender);
    FreshKeeps(views, seen, r, c, sender, LeftOut(ids, views[c.dst], c, sender));
  }

  lemma KnownRumor(views: Views, seen: set<Host>, r: Rumor, ids: set<nat>, c: Copy, sender: Host)
    requires RumorInv(views, seen, r) && c in r.flight && c.dst in views
    requires c.msg == r.msg && c.msg.id in ids && c.dst in seen
    ensures RumorInv(views, seen + {c.dst}, Handled(r, ids, views[c.dst], c, sender))
  {
    HandledIs(r, ids, views[c.dst], c, sender);
    DuplicateKeeps(views, seen, r, c);
    assert seen + {c.dst} == seen;
  }

  /** The rumor after a receive, fresh or not. */
  lemma ReceiveRumor(views: Views, seen: set<Host>, r: Rumor, ids: set<nat>, c: Copy, sender: Host)
    requires Closed(views) && RumorInv(views, seen, r) && c in r.flight && c.dst in views
    requires c.msg.id in ids <==> c.dst in seen
    ensures RumorInv(views, seen + {c.dst}, Handled(r, ids, views[c.dst], c, sender))
  {
    CopyIsRumor(views, seen, r, c);
    if c.dst in seen {
      KnownRumor(views, seen, r, ids, c, sender);
    } else {
      FreshRumor(views, seen, r, ids, c, sender);
    }
  }

  lemma CopyIsRumor(views: Views, seen: set<Host>, r: Rumor, c: Copy)
    requires RumorInv(views, seen, r) && c in r.flight
    ensures c.msg == r.msg
  {
  }

  lemma ReceiveTouches(views: Views, net: Net, c: Copy, sender: Host)
    requires net.seen.Keys == views.Keys && Enabled(views, net, Receive(c, sender))
    ensures var net', id := Next(views, net, Receive(c, sender)), c.msg.id;
            Touches(views, net, net', id) && SeenBy(views, net', id) == SeenBy(views, net, id) + {c.dst}
  {
  }

  lemma ReceiveSound(views: Views, net: Net, c: Copy, sender: Host)
    requires Closed(views) && net.seen.Keys == views.Keys && Enabled(views, net, Receive(c, sender))
    requires Sound(views, net, c.msg.id)
    ensures var net' := Next(views, net, Receive(c, sender));
            Touches(views, net, net', c.msg.id) && Sound(views, net', c.msg.id)
  {
    ReceiveTouches(views, net, c, sender);
    ReceiveRumor(views, SeenBy(views, net, c.msg.id), net.rumors[c.msg.id], net.seen[c.dst], c, sender);
  }

  lemma LoseSound(views: Views, net: Net, c: Copy)
    requires Closed(views) && net.seen.Keys == views.Keys && InFlight(net, c) && Sound(views, net, c.msg.id)
    ensures var net' := Next(views, net, Lose(c)); Touches(views, net, net', c.msg.id) && Sound(views, net', c.msg.id)
  {
    var net' := Next(views, net, Lose(c));
    LoseKeeps(views, SeenBy(views, net, c.msg.id), net.rumors[c.msg.id], c);
    assert SeenBy(views, net', c.msg.id) == SeenBy(views, net, c.msg.id);
  }

  lemma NextIsSound(views: Views, net: Net, step: Step)
    requires Closed(views) && NetInv(views, net) && Enabled(views, net, step)
    ensures NetInv(views, Next(views, net, step))
  {
    var net' := Next(views, net, step);
    match step
    case Originate(n, m) =>
      OriginateSound(views, net, n, m);
      OneRumor(views, net, net', m.id);
    case Receive(c, sender) =>
      ReceiveSound(views, net, c, sender);
      OneRumor(views, net, net', c.msg.id);
    case Lose(c) =>
      LoseSound(views, net, c);
      OneRumor(views, net, net', c.msg.id);
  }

  lemma {:induction false} RunIsSound(views: Views, steps: seq<Step>)
    requires Closed(views)
    ensures NetInv(views, Run(views, steps))
    decreases |steps|
  {
    if steps == [] {
    } else {
      var net, step := Run(views, steps[..|steps| - 1]), steps[|steps| - 1];
      RunIsSound(views, steps[..|steps| - 1]);
      if Enabled(views, net, step) {
        NextIsSound(views, net, step);
      }
    }
  }

  // --- what holds over every run ----------------------------------------------------------------------------

  /** Whatever is lost or mislabelled, a rumor is delivered only to nodes reachable from its origin, at most
      once each and unaltered; a node has seen it exactly if it has delivered it. */
  lemma DeliveryIsSafe(views: Views, steps: seq<Step>, id: nat)
    requires Closed(views) && id in Run(views, steps).rumors
    ensures SafelyDelivered(views, SeenBy(views, Run(views, steps), id), Run(views, steps).rumors[id])
  {
    RunIsSound(views, steps);
    assert Sound(views, Run(views, steps), id);
    RumorIsSafe(views, SeenBy(views, Run(views, steps), id), Run(views, steps).rumors[id]);
  }

  ghost predicate SafelyDelivered(views: Views, seen: set<Host>, r: Rumor) {
    && (forall k :: 0 <= k < |r.delivered| ==>
          r.delivered[k].1 == r.msg && Reachable(views, r.origin, r.delivered[k].0))
    && (forall j, k :: 0 <= j < k < |r.delivered| ==> r.delivered[j].0 != r.delivered[k].0)
    && (forall n :: n in seen <==> (n, r.msg) in r.delivered)
  }

  lemma RumorIsSafe(views: Views, seen: set<Host>, r: Rumor)
    requires RumorInv(views, seen, r)
    ensures SafelyDelivered(views, seen, r)
  {
  }

  /** Along a path of fully told nodes everyone knows. */
  lemma {:induction false} PathIsCovered(views: Views, seen: set<Host>, path: seq<Host>)
    requires IsPath(views, path) && path[0] in seen
    requires forall n, v :: n in seen && n in views && v in views[n] ==> v in seen
    ensures path[|path| - 1] in seen
    decreases |path|
  {
    if |path| == 1 {
    } else {
      PathIsCovered(views, seen, path[..|path| - 1]);
    }
  }

  ghost predicate Covers(views: Views, seen: set<Host>, r: Rumor) {
    forall n :: n in seen <==> Reachable(views, r.origin, n)
  }

  lemma QuietRumorCovers(views: Views, seen: set<Host>, r: Rumor)
    requires RumorInv(views, seen, r) && r.flight == multiset{}
    ensures Covers(views, seen, r) <==> r.missed <= seen
  {
    if r.missed <= seen {
      assert forall v :: !Headed(r.flight, v);
      forall n | Reachable(views, r.origin, n) ensures n in seen {
        var path :| IsPath(views, path) && path[0] == r.origin && path[|path| - 1] == n;
        PathIsCovered(views, seen, path);
      }
    }
  }

  /** Coverage, exactly: once no copy of an ID is in flight, the nodes that have seen it are
      those reachable from its origin along views if and only if every host a copy to which
      was lost, or which a wrong label left out, has come to see it another way. */
  lemma CoverageCondition(views: Views, steps: seq<Step>, id: nat)
    requires Closed(views) && id in Run(views, steps).rumors
    requires Run(views, steps).rumors[id].flight == multiset{}
    ensures var net := Run(views, steps);
            Covers(views, SeenBy(views, net, id), net.rumors[id]) <==> net.rumors[id].missed <= SeenBy(views, net, id)
  {
    RunIsSound(views, steps);
    assert Sound(views, Run(views, steps), id);
    QuietRumorCovers(views, SeenBy(views, Run(views, steps), id), Run(views, steps).rumors[id]);
  }

  /** A step that loses nothing and labels copies with their sender or with a host outside the
      receiver's view. */
  ghost predicate Proper(views: Views, step: Step) {
    match step
    case Originate(_, _) => true
    case Receive(c, sender) => sender == c.src || c.dst !in views || sender !in views[c.dst]
    case Lose(_) => false
  }

  ghost predicate NothingMissed(net: Net) {
    forall id :: id in net.rumors ==> net.rumors[id].missed == {}
  }

  lemma ProperMissesNothing(views: Views, net: Net, step: Step)
    requires NothingMissed(net) && Proper(views, step)
    ensures NothingMissed(Next(views, net, step))
  {
  }

  lemma {:induction false} ProperRunMissesNothing(views: Views, steps: seq<Step>)
    requires forall k :: 0 <= k < |steps| ==> Proper(views, steps[k])
    ensures NothingMissed(Run(views, steps))
    decreases |steps|
  {
    if steps == [] {
    } else {
      ProperRunMissesNothing(views, steps[..|steps| - 1]);
      ProperMissesNothing(views, Run(views, steps[..|steps| - 1]), steps[|steps| - 1]);
    }
  }

  /** Coverage: without losses and with proper labels, once no copy of an ID is in flight the
      nodes that have seen it are exactly those reachable from its origin along views,
      although every node leaves out the host it takes for the sender. */
  lemma GossipCovers(views: Views, steps: seq<Step>, id: nat)
    requires Closed(views) && id in Run(views, steps).rumors && Run(views, steps).rumors[id].flight == multiset{}
    requires forall k :: 0 <= k < |steps| ==> Proper(views, steps[k])
    ensures Covers(views, SeenBy(views, Run(views, steps), id), Run(views, steps).rumors[id])
  {
    ProperRunMissesNothing(views, steps);
    CoverageCondition(views, steps, id);
  }

  /** The work still to be done for an ID: the views of the nodes that have not seen it, plus
      the copies in flight. */
  ghost function Potential(views: Views, net: Net, id: nat): nat
    requires id in net.rumors
  {
    Weight(views, views.Keys - SeenBy(views, net, id)) + |net.rumors[id].flight|
  }

  /** A receive pays one copy and, if fresh, trades the node's view for at most as many sends. */
  lemma ReceivePays(views: Views, seen: set<Host>, r: Rumor, ids: set<nat>, c: Copy, sender: Host)
    requires seen <= views.Keys && c in r.flight && c.dst in views && (c.msg.id in ids <==> c.dst in seen)
    ensures var r' := Handled(r, ids, views[c.dst], c, sender);
            Weight(views, views.Keys - (seen + {c.dst})) + |r'.flight| < Weight(views, views.Keys - seen) + |r.flight|
  {
    if c.dst in seen {
      assert seen + {c.dst} == seen;
      assert Copies(c.dst, []) == multiset{};
    } else {
      ExcludingMembers(views[c.dst], sender);
      CopiesOf(c.dst, c.msg, Excluding(views[c.dst], sender));
      WeightWithout(views, views.Keys - seen, c.dst);
      assert views.Keys - (seen + {c.dst}) == views.Keys - seen - {c.dst};
    }
  }

  /** Termination: every receive of an ID, and every loss, uses up potential. */
  lemma PotentialFalls(views: Views, net: Net, step: Step)
    requires net.seen.Keys == views.Keys && Enabled(views, net, step) && !step.Originate?
    ensures step.copy.msg.id in Next(views, net, step).rumors
    ensures Potential(views, Next(views, net, step), step.copy.msg.id) < Potential(views, net, step.copy.msg.id)
  {
    var c, net' := step.copy, Next(views, net, step);
    var r, seen := net.rumors[c.msg.id], SeenBy(views, net, c.msg.id);
    if step.Lose? {
      assert SeenBy(views, net', c.msg.id) == seen;
    } else {
      ReceiveTouches(views, net, c, step.sender);
      ReceivePays(views, seen, r, net.seen[c.dst], c, step.sender);
    }
  }

  /** Traffic bound: over any run the sends of one ID never exceed the sum of all view sizes,
      and every send is received, lost or still in flight. */
  lemma TrafficIsBounded(views: Views, steps: seq<Step>, id: nat)
    requires Closed(views) && id in Run(views, steps).rumors
    ensures var r := Run(views, steps).rumors[id];
            r.received + r.lost + |r.flight| == r.sent <= Weight(views, views.Keys)
  {
    RunIsSound(views, steps);
    assert Sound(views, Run(views, steps), id);
  }

  // --- why the label matters --------------------------------------------------------------------------------

  lemma RunSnoc(views: Views, steps: seq<Step>, step: Step)
    ensures Run(views, steps + [step]) == Next(views, Run(views, steps), step)
  {
    assert (steps + [step])[..|steps|] == steps;
  }

  function Chain(a: Host, b: Host, c: Host): Views {
    map[a := [b], b := [c], c := []]
  }

  lemma ChainReaches(a: Host, b: Host, c: Host)
    requires a != b && a != c && b != c
    ensures Closed(Chain(a, b, c)) && Reachable(Chain(a, b, c), a, c)
  {
    var views := Chain(a, b, c);
    ReachSelf(views, a);
    ReachFurther(views, a, a, b);
    ReachFurther(views, a, b, c);
  }

  lemma FirstRumor(a: Host, b: Host, m: Message)
    ensures Spread(Rumor(a, m, multiset{}, 0, 0, 0, {}, []), a, Originated([b], m))
         == Rumor(a, m, multiset{Copy(a, b, m)}, 1, 0, 0, {}, [(a, m)])
  {
    var packets := Fanout(m, [b]);
    assert packets == [Packet(b, m)];
    assert seq(|packets|, k requires 0 <= k < |packets| => Copy(a, packets[k].to, packets[k].msg)) == [Copy(a, b, m)];
    assert [] + Tagged(a, [m]) == [(a, m)];
  }

  lemma ChainOriginates(a: Host, b: Host, c: Host, m: Message) returns (steps: seq<Step>)
    requires a != b && a != c && b != c
    ensures Run(Chain(a, b, c), steps)
         == Net(map[a := {m.id}, b := {}, c := {}],
                map[m.id := Rumor(a, m, multiset{Copy(a, b, m)}, 1, 0, 0, {}, [(a, m)])])
  {
    var views := Chain(a, b, c);
    FirstRumor(a, b, m);
    RunSnoc(views, [], Originate(a, m));
    assert Boot(views).seen == map[a := {}, b := {}, c := {}];
    assert {} + {m.id} == {m.id};
    steps := [] + [Originate(a, m)];
  }

  lemma StrayRumor(a: Host, b: Host, c: Host, m: Message)
    requires a != c
    ensures Handled(Rumor(a, m, multiset{Copy(a, b, m)}, 1, 0, 0, {}, [(a, m)]), {}, [c], Copy(a, b, m), c)
         == Rumor(a, m, multiset{}, 1, 1, 0, {c}, [(a, m), (b, m)])
  {
    assert Excluding([c], c) == [] by { ExcludingMembers([c], c); }
    assert Copies(b, Fanout(m, [])) == multiset{};
    assert [(a, m)] + Tagged(b, [m]) == [(a, m), (b, m)];
    assert {} + {c} == {c};
  }

  /** The label is needed: in a chain of any three nodes, one receive that names the next node
      as the sender ends the gossip, with nothing lost and nothing in flight, before a
      reachable node has seen the message. */
  lemma StrayLabelUncovers(a: Host, b: Host, c: Host, m: Message) returns (steps: seq<Step>)
    requires a != b && a != c && b != c
    ensures var net := Run(Chain(a, b, c), steps);
            && Closed(Chain(a, b, c)) && m.id in net.rumors
            && var r := net.rumors[m.id];
               && r.flight == multiset{} && r.lost == 0 && r.missed == {c}
               && Reachable(Chain(a, b, c), r.origin, c) && c !in SeenBy(Chain(a, b, c), net, m.id)
  {
    ChainReaches(a, b, c);
    steps := ChainOriginates(a, b, c, m);
    StrayRumor(a, b, c, m);
    RunSnoc(Chain(a, b, c), steps, Receive(Copy(a, b, m), c));
    steps := steps + [Receive(Copy(a, b, m), c)];
  }
}
