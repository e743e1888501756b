/** The discovery registry: node leases, fenced by generation and expiry, and the service names
    bound under them. */
module Discovery {

  datatype Ref = Ref(node: nat, id: nat)

  datatype Lease = Lease(node: nat, epoch: nat, generation: nat)

  datatype Registration = Registration(epoch: nat, generation: nat, owner: Ref, expires: int)

  datatype Binding = Binding(ref: Ref, owner: Lease)

  /** `names` and `byLease` are two views of the same bindings. */
  datatype Registry = Registry(epoch: nat, nodes: map<nat, Registration>, names: map<nat, Binding>,
                               byLease: map<Lease, set<nat>>, next: nat)

  const GENERATIONS := 0x1_0000_0000_0000_0000

  predicate Active(nodes: map<nat, Registration>, lease: Lease)
  {
    lease.node in nodes && nodes[lease.node].epoch == lease.epoch && nodes[lease.node].generation == lease.generation
  }

  // ---------------------------------------------------------------------------------
  // Commands on values
  // ---------------------------------------------------------------------------------

  function LiveNames(names: map<nat, Binding>, nodes: map<nat, Registration>): map<nat, Binding>
  {
    map n | n in names && Active(nodes, names[n].owner) :: names[n]
  }

  function LiveIndex(byLease: map<Lease, set<nat>>, nodes: map<nat, Registration>): map<Lease, set<nat>>
  {
    map l | l in byLease && Active(nodes, l) :: byLease[l]
  }

  /** Keep some of the nodes, and the names of those. */
  function Restrict(r: Registry, nodes: map<nat, Registration>): Registry
  {
    r.(nodes := nodes, names := LiveNames(r.names, nodes), byLease := LiveIndex(r.byLease, nodes))
  }

  function RemoveNode(r: Registry, node: nat): Registry { Restrict(r, r.nodes - {node}) }

  function Unexpired(nodes: map<nat, Registration>, now: int): map<nat, Registration>
  {
    map n | n in nodes && nodes[n].expires > now :: nodes[n]
  }

  function Prune(r: Registry, now: int): Registry { Restrict(r, Unexpired(r.nodes, now)) }

  /** Zero is skipped when the generation counter wraps around. */
  function NextGeneration(next: nat): nat { if next + 1 >= GENERATIONS then 1 else next + 1 }

  datatype Command =
    | RegisterNode(node: nat, address: bool)
    | Heartbeat(lease: Lease)
    | UnregisterNode(lease: Lease)
    | RegisterName(lease: Lease, name: nat, ref: Ref)
    | UnregisterName(lease: Lease, name: nat, ref: Ref)
    | Read

  predicate ValidLease(l: Lease) { l.node != 0 && l.epoch != 0 && l.generation != 0 }

  predicate ValidBinding(l: Lease, name: nat, ref: Ref) { name != 0 && ref.node == l.node && ref.id != 0 }

  /** The lease is the node's current one, and the command comes from its owner. */
  predicate Authorised(r: Registry, lease: Lease, source: Ref)
  {
    ValidLease(lease) && Active(r.nodes, lease) && r.nodes[lease.node].owner == source
  }

  function Bind(r: Registry, lease: Lease, name: nat, ref: Ref): Registry
  {
    var owned := if lease in r.byLease then r.byLease[lease] else {};
    r.(names := r.names[name := Binding(ref, lease)], byLease := r.byLease[lease := owned + {name}])
  }

  function Unbind(r: Registry, lease: Lease, name: nat): Registry
  {
    var owned := (if lease in r.byLease then r.byLease[lease] else {}) - {name};
    r.(names := r.names - {name}, byLease := if owned == {} then r.byLease - {lease} else r.byLease[lease := owned])
  }

  function Enrol(r: Registry, node: nat, source: Ref, expires: int): Registry
  {
    var generation := NextGeneration(r.next);
    var removed := RemoveNode(r, node);
    removed.(next := generation, nodes := removed.nodes[node := Registration(r.epoch, generation, source, expires)])
  }

  /** One command at time `now`: expired nodes go first. */
  function Step(registry: Registry, now: int, ttl: nat, source: Ref, c: Command): Registry
  {
    var r := Prune(registry, now);
    match c
    case RegisterNode(node, address) =>
      if node == 0 || !address || source.node != node then r else Enrol(r, node, source, now + ttl)
    case Heartbeat(lease) =>
      if !Authorised(r, lease, source) then r
      else r.(nodes := r.nodes[lease.node := r.nodes[lease.node].(expires := now + ttl)])
    case UnregisterNode(lease) => if !Authorised(r, lease, source) then r else RemoveNode(r, lease.node)
    case RegisterName(lease, name, ref) =>
      if !Authorised(r, lease, source) || !ValidBinding(lease, name, ref)
        || (name in r.names && r.names[name].owner != lease)
      then r else Bind(r, lease, name, ref)
    case UnregisterName(lease, name, ref) =>
      if !Authorised(r, lease, source) || !ValidBinding(lease, name, ref) || name !in r.names
        || r.names[name] != Binding(ref, lease)
      then r else Unbind(r, lease, name)
    case Read => r
  }

  // ---------------------------------------------------------------------------------
  // Replies
  // ---------------------------------------------------------------------------------

  datatype Reply =
    | Leased(lease: Lease, expires: int)
    | Done
    | InvalidNode
    | InvalidName
    | LeaseExpired
    | OwnerMismatch
    | NameConflict
    | NameNotFound
    | NoReply

  predicate Refusal(a: Reply) { !a.Leased? && !a.Done? && !a.NoReply? }

  /** What is wrong with a command under a lease, once its form is valid. */
  function LeaseReply(r: Registry, lease: Lease, source: Ref, good: Reply): Reply
  {
    if !Active(r.nodes, lease) then LeaseExpired
    else if r.nodes[lease.node].owner != source then OwnerMismatch
    else good
  }

  function ReplyTo(registry: Registry, now: int, ttl: nat, source: Ref, c: Command): Reply
  {
    var r := Prune(registry, now);
    match c
    case RegisterNode(node, address) =>
      if node == 0 || !address then InvalidNode
      else if source.node != node then OwnerMismatch
      else Leased(Lease(node, r.epoch, NextGeneration(r.next)), now + ttl)
    case Heartbeat(lease) =>
      if !ValidLease(lease) then InvalidNode else LeaseReply(r, lease, source, Leased(lease, now + ttl))
    case UnregisterNode(lease) => if !ValidLease(lease) then InvalidNode else LeaseReply(r, lease, source, Done)
    case RegisterName(lease, name, ref) =>
      if !ValidLease(lease) || !ValidBinding(lease, name, ref) then InvalidName
      else LeaseReply(r, lease, source, if name in r.names && r.names[name].owner != lease then NameConflict else Done)
    case UnregisterName(lease, name, ref) =>
      if !ValidLease(lease) || !ValidBinding(lease, name, ref) then InvalidName
      else
        var bound := name in r.names && r.names[name] == Binding(ref, lease);
        LeaseReply(r, lease, source, if bound then Done else NameNotFound)
    case Read => NoReply
  }

  /** Replies tell the truth: a refused command did nothing but expire nodes, a granted lease is
      current, its sender's and fresh, and what was asked for is done. */
  lemma RepliesTell(registry: Registry, now: int, ttl: nat, source: Ref, c: Command)
    ensures var a, r := ReplyTo(registry, now, ttl, source, c), Step(registry, now, ttl, source, c);
            && (Refusal(a) ==> r == Prune(registry, now))
            && (a.Leased? ==> Active(r.nodes, a.lease) && r.nodes[a.lease.node].owner == source)
            && (a.Leased? ==> r.nodes[a.lease.node].expires == a.expires == now + ttl)
            && (c.RegisterName? ==>
                  (a == Done <==> c.name in r.names && r.names[c.name] == Binding(c.ref, c.lease)
                                  && Authorised(r, c.lease, source) && ValidBinding(c.lease, c.name, c.ref)))
            && (c.UnregisterName? && a == Done ==> c.name !in r.names)
            && (c.UnregisterNode? && a == Done ==> c.lease.node !in r.nodes)
            && (c.Heartbeat? || c.UnregisterNode? ==>
                  (a == LeaseExpired <==> ValidLease(c.lease) && !Active(Unexpired(registry.nodes, now), c.lease)))
  {
  }

  // ---------------------------------------------------------------------------------
  // The two views agree
  // ---------------------------------------------------------------------------------

  predicate NameSound(r: Registry, n: nat)
    requires n in r.names
  {
    var b := r.names[n];
    && Active(r.nodes, b.owner) && b.ref.node == b.owner.node
    && b.owner in r.byLease && n in r.byLease[b.owner]
  }

  predicate LeaseSound(r: Registry, l: Lease)
    requires l in r.byLease
  {
    r.byLease[l] != {} && forall n :: n in r.byLease[l] ==> n in r.names && r.names[n].owner == l
  }

  /** The views are exact inverses, and every binding belongs to the current lease of the
      node its service runs on. */
  predicate Indexed(r: Registry)
  {
    (forall n :: n in r.names ==> NameSound(r, n)) && (forall l :: l in r.byLease ==> LeaseSound(r, l))
  }

  lemma RestrictIndexed(r: Registry, nodes: map<nat, Registration>)
    requires Indexed(r)
    ensures Indexed(Restrict(r, nodes))
  {
    var s := Restrict(r, nodes);
    forall n | n in s.names ensures NameSound(s, n) {
      assert NameSound(r, n);
    }
    forall l | l in s.byLease ensures LeaseSound(s, l) {
      assert LeaseSound(r, l);
    }
  }

  /** Nodes may come and change their expiry as long as no current lease changes. */
  lemma NodesIndexed(r: Registry, s: Registry)
    requires Indexed(r) && s.names == r.names && s.byLease == r.byLease
    requires forall l :: Active(r.nodes, l) ==> Active(s.nodes, l)
    ensures Indexed(s)
  {
    forall n | n in s.names ensures NameSound(s, n) {
      assert NameSound(r, n);
    }
    forall l | l in s.byLease ensures LeaseSound(s, l) {
      assert LeaseSound(r, l);
    }
  }

  lemma EnrolIndexed(r: Registry, node: nat, source: Ref, expires: int)
    requires Indexed(r)
    ensures Indexed(Enrol(r, node, source, expires))
  {
    RestrictIndexed(r, r.nodes - {node});
    NodesIndexed(RemoveNode(r, node), Enrol(r, node, source, expires));
  }

  lemma BindIndexed(r: Registry, lease: Lease, name: nat, ref: Ref)
    requires Indexed(r) && Active(r.nodes, lease) && ref.node == lease.node
        && (name in r.names ==> r.names[name].owner == lease)
    ensures Indexed(Bind(r, lease, name, ref))
  {
    var s := Bind(r, lease, name, ref);
    forall n | n in s.names ensures NameSound(s, n) {
      if n != name { assert NameSound(r, n); }
    }
    forall l | l in s.byLease ensures LeaseSound(s, l) {
      if l in r.byLease { assert LeaseSound(r, l); }
      if l == lease { assert name in s.byLease[l]; }
    }
  }

  lemma UnbindIndexed(r: Registry, lease: Lease, name: nat)
    requires Indexed(r) && name in r.names && r.names[name].owner == lease
    ensures Indexed(Unbind(r, lease, name))
  {
    var s := Unbind(r, lease, name);
    assert NameSound(r, name);
    forall n | n in s.names ensures NameSound(s, n) {
      assert NameSound(r, n);
    }
    forall l | l in s.byLease ensures LeaseSound(s, l) {
      assert LeaseSound(r, l);
    }
  }

  lemma StepIndexed(registry: Registry, now: int, ttl: nat, source: Ref, c: Command)
    requires Indexed(registry)
    ensures Indexed(Step(registry, now, ttl, source, c))
  {
    var r := Prune(registry, now);
    RestrictIndexed(registry, Unexpired(registry.nodes, now));
    match c
    case RegisterNode(node, address) => EnrolIndexed(r, node, source, now + ttl);
    case Heartbeat(lease) => if Authorised(r, lease, source) { NodesIndexed(r, Step(registry, now, ttl, source, c)); }
    case UnregisterNode(lease) => RestrictIndexed(r, r.nodes - {lease.node});
    case RegisterName(lease, name, ref) =>
      if Authorised(r, lease, source) && ValidBinding(lease, name, ref)
        && (name in r.names ==> r.names[name].owner == lease) {
        BindIndexed(r, lease, name, ref);
      }
    case UnregisterName(lease, name, ref) =>
      if name in r.names && r.names[name].owner == lease {
        UnbindIndexed(r, lease, name);
      }
    case Read =>
  }

  // ---------------------------------------------------------------------------------
  // Stale leases stay stale
  // ---------------------------------------------------------------------------------

  /** Generations that were handed out are at most `next`. */
  predicate Fenced(r: Registry)
  {
    forall n :: n in r.nodes ==> r.nodes[n].epoch == r.epoch && r.nodes[n].generation <= r.next
  }

  /** A lease that was issued, or could have been, and is not the current one. */
  predicate Stale(r: Registry, lease: Lease) { lease.generation <= r.next && !Active(r.nodes, lease) }

  predicate Room(r: Registry) { r.next + 1 < GENERATIONS }

  lemma StepFenced(registry: Registry, now: int, ttl: nat, source: Ref, c: Command)
    requires Fenced(registry) && Room(registry)
    ensures Fenced(Step(registry, now, ttl, source, c))
    ensures registry.next <= Step(registry, now, ttl, source, c).next <= registry.next + 1
    ensures Step(registry, now, ttl, source, c).epoch == registry.epoch
  {
  }

  /** No command makes a stale lease current again. */
  lemma StaleStays(registry: Registry, now: int, ttl: nat, source: Ref, c: Command, lease: Lease)
    requires Fenced(registry) && Room(registry) && Stale(registry, lease)
    ensures Stale(Step(registry, now, ttl, source, c), lease)
  {
  }

  /** A lease that has expired is stale after any command at that time. */
  lemma ExpiredIsStale(registry: Registry, now: int, ttl: nat, source: Ref, c: Command, lease: Lease)
    requires Fenced(registry) && Room(registry) && Active(registry.nodes, lease)
    requires registry.nodes[lease.node].expires <= now
    ensures Stale(Step(registry, now, ttl, source, c), lease)
  {
  }

  /** After a command at time `now`, every lease left is unexpired. */
  lemma LeasesUnexpired(registry: Registry, now: int, ttl: nat, source: Ref, c: Command)
    requires ttl > 0
    ensures forall n :: n in Step(registry, now, ttl, source, c).nodes ==>
        Step(registry, now, ttl, source, c).nodes[n].expires > now
  {
  }

  /** The command replaces or gives up the lease. */
  predicate Ends(c: Command, lease: Lease)
  {
    (c.RegisterNode? && c.node == lease.node) || (c.UnregisterNode? && c.lease.node == lease.node)
  }

  /** A lease that is not past its expiry stays current, and keeps its names, through every
      command that does not end it; its owner's heartbeat extends it. */
  lemma LeaseSurvives(registry: Registry, now: int, ttl: nat, source: Ref, c: Command, lease: Lease, name: nat)
    requires Active(registry.nodes, lease) && registry.nodes[lease.node].expires > now && !Ends(c, lease)
    ensures var r := Step(registry, now, ttl, source, c);
            && Active(r.nodes, lease) && r.nodes[lease.node].owner == registry.nodes[lease.node].owner
            && (name in registry.names && registry.names[name].owner == lease && !c.UnregisterName? ==>
                  name in r.names && r.names[name].owner == lease)
            && (c == Heartbeat(lease) && ValidLease(lease) && source == registry.nodes[lease.node].owner ==>
                  r.nodes[lease.node].expires == now + ttl)
  {
  }

  function LeaseOf(c: Command): Lease
    requires !c.RegisterNode? && !c.Read?
  {
    c.lease
  }

  /** A command under a stale lease changes nothing but what expiry changes. */
  lemma StaleDoesNothing(registry: Registry, now: int, ttl: nat, source: Ref, c: Command)
    requires !c.RegisterNode? && !c.Read? && Stale(registry, LeaseOf(c))
    ensures Step(registry, now, ttl, source, c) == Prune(registry, now)
  {
  }

  // ---------------------------------------------------------------------------------
  // Whole runs
  // ---------------------------------------------------------------------------------

  datatype Event = Event(now: int, source: Ref, command: Command)

  function Run(r: Registry, ttl: nat, events: seq<Event>): Registry
  {
    if events == [] then r
    else
      var before, last := Run(r, ttl, events[..|events| - 1]), events[|events| - 1];
      Step(before, last.now, ttl, last.source, last.command)
  }

  function Fresh(epoch: nat): Registry { Registry(epoch, map[], map[], map[], 0) }

  /** After every command the two views agree, and every binding has a current lease. */
  lemma {:induction false} RunIndexed(epoch: nat, ttl: nat, events: seq<Event>)
    ensures Indexed(Run(Fresh(epoch), ttl, events))
  {
    if events != [] {
      var last := events[|events| - 1];
      RunIndexed(epoch, ttl, events[..|events| - 1]);
      StepIndexed(Run(Fresh(epoch), ttl, events[..|events| - 1]), last.now, ttl, last.source, last.command);
    }
  }

  lemma {:induction false} RunFenced(epoch: nat, ttl: nat, events: seq<Event>)
    requires |events| < GENERATIONS
    ensures Fenced(Run(Fresh(epoch), ttl, events)) && Run(Fresh(epoch), ttl, events).next <= |events|
  {
    if events != [] {
      var last := events[|events| - 1];
      RunFenced(epoch, ttl, events[..|events| - 1]);
      StepFenced(Run(Fresh(epoch), ttl, events[..|events| - 1]), last.now, ttl, last.source, last.command);
    }
  }

  /** Until the generations wrap around, a lease that is stale at some point of a run is stale
      at every later point, so it never authorises anything again. */
  lemma {:induction false} StaleForever(epoch: nat, ttl: nat, events: seq<Event>, k: nat, lease: Lease)
    requires k <= |events| < GENERATIONS && Stale(Run(Fresh(epoch), ttl, events[..k]), lease)
    ensures Stale(Run(Fresh(epoch), ttl, events), lease)
    decreases |events|
  {
    if k == |events| {
      assert events[..k] == events;
    } else {
      var early, last := events[..|events| - 1], events[|events| - 1];
      assert early[..k] == events[..k];
      StaleForever(epoch, ttl, early, k, lease);
      RunFenced(epoch, ttl, early);
      StaleStays(Run(Fresh(epoch), ttl, early), last.now, ttl, last.source, last.command, lease);
    }
  }

  // ---------------------------------------------------------------------------------
  // The service
  // ---------------------------------------------------------------------------------

  /** With agreeing views, deleting what the index lists is restricting to what is current. */
  lemma RemovedViews(r: Registry, node: nat, lease: Lease)
    requires Indexed(r) && node in r.nodes && lease == Lease(node, r.nodes[node].epoch, r.nodes[node].generation)
    ensures var owned := if lease in r.byLease then r.byLease[lease] else {};
            r.names - owned == LiveNames(r.names, r.nodes - {node})
              && r.byLease - {lease} == LiveIndex(r.byLease, r.nodes - {node})
  {
    var owned := if lease in r.byLease then r.byLease[lease] else {};
    var nodes := r.nodes - {node};
    forall n | n in r.names ensures n in owned <==> !Active(nodes, r.names[n].owner) {
      assert NameSound(r, n);
      if lease in r.byLease { assert LeaseSound(r, lease); }
    }
    forall l | l in r.byLease ensures l == lease <==> !Active(nodes, l) {
      IndexActive(r, l);
    }
  }

  lemma IndexActive(r: Registry, l: Lease)
    requires Indexed(r) && l in r.byLease
    ensures Active(r.nodes, l)
  {
    assert LeaseSound(r, l);
    var n :| n in r.byLease[l];
    assert NameSound(r, n);
  }

  /** Restricting to all nodes changes nothing. */
  lemma RestrictSame(r: Registry)
    requires Indexed(r)
    ensures Restrict(r, r.nodes) == r
  {
    forall n | n in r.names ensures Active(r.nodes, r.names[n].owner) {
      assert NameSound(r, n);
    }
    forall l | l in r.byLease ensures Active(r.nodes, l) {
      IndexActive(r, l);
    }
    assert LiveNames(r.names, r.nodes) == r.names && LiveIndex(r.byLease, r.nodes) == r.byLease;
  }

  predicate PartOf(nodes: map<nat, Registration>, all: map<nat, Registration>)
  {
    forall n :: n in nodes ==> n in all && nodes[n] == all[n]
  }

  lemma RestrictTwice(r: Registry, nodes: map<nat, Registration>, node: nat)
    requires PartOf(nodes, r.nodes)
    ensures RemoveNode(Restrict(r, nodes), node) == Restrict(r, nodes - {node})
  {
    var fewer := nodes - {node};
    assert LiveNames(LiveNames(r.names, nodes), fewer) == LiveNames(r.names, fewer);
    assert LiveIndex(LiveIndex(r.byLease, nodes), fewer) == LiveIndex(r.byLease, fewer);
  }

  class Service {
    const epoch: nat
    const ttl: nat
    var nodes: map<nat, Registration>
    var names: map<nat, Binding>
    var byLease: map<Lease, set<nat>>
    var next: nat

    function Abs(): Registry
      reads this
    {
      Registry(epoch, nodes, names, byLease, next)
    }

    constructor (epoch: nat, ttl: nat)
      ensures Abs() == Fresh(epoch) && this.ttl == ttl
    {
      this.epoch, this.ttl := epoch, ttl;
      nodes, names, byLease, next := map[], map[], map[], 0;
    }

    /** Deletes a node, the names bound under its lease, and the lease's index. */
    method Remove(node: nat)
      requires Indexed(Abs())
      modifies this`nodes, this`names, this`byLease
      ensures Abs() == RemoveNode(old(Abs()), node)
    {
      if node in nodes {
        var lease := Lease(node, nodes[node].epoch, nodes[node].generation);
        if lease in byLease {
          DeleteNames(byLease[lease]);
        }
        byLease := byLease - {lease};
        RemovedViews(old(Abs()), node, lease);
      } else {
        RestrictSame(Abs());
        assert nodes - {node} == nodes;
      }
      nodes := nodes - {node};
    }

    method DeleteNames(owned: set<nat>)
      modifies this`names
      ensures names == old(names) - owned
    {
      var rest := owned;
      while rest != {}
        invariant rest <= owned && names == old(names) - (owned - rest)
        decreases rest
      {
        var name :| name in rest;
        names := names - {name};
        rest := rest - {name};
      }
    }

    method PruneExpired(now: int)
      requires Indexed(Abs())
      modifies this`nodes, this`names, this`byLease
      ensures Abs() == Prune(old(Abs()), now)
    {
      var rest := nodes.Keys;
      ghost var was := Abs();
      RestrictSame(was);
      while rest != {}
        invariant rest <= was.nodes.Keys && PartOf(nodes, was.nodes) && Abs() == Restrict(was, nodes)
        invariant forall n :: n in was.nodes ==> (n in nodes <==> n in rest || was.nodes[n].expires > now)
        decreases rest
      {
        var node :| node in rest;
        if nodes[node].expires <= now {
          RestrictIndexed(was, nodes);
          RestrictTwice(was, nodes, node);
          Remove(node);
        }
        rest := rest - {node};
      }
      assert nodes == Unexpired(was.nodes, now);
    }

    /** One command, as the mailbox delivers it. */
    method Handle(now: int, source: Ref, c: Command) returns (reply: Reply)
      requires Indexed(Abs())
      modifies this
      ensures Abs() == Step(old(Abs()), now, ttl, source, c) && Indexed(Abs())
      ensures reply == ReplyTo(old(Abs()), now, ttl, source, c)
    {
      StepIndexed(Abs(), now, ttl, source, c);
      RestrictIndexed(Abs(), Unexpired(nodes, now));
      PruneExpired(now);
      match c
      case RegisterNode(node, address) => reply := Register(now, source, node, address);
      case Heartbeat(lease) =>
        reply := CheckLease(lease, source, InvalidNode);
        if reply == Done {
          nodes := nodes[lease.node := nodes[lease.node].(expires := now + ttl)];
          reply := Leased(lease, now + ttl);
        }
      case UnregisterNode(lease) =>
        reply := CheckLease(lease, source, InvalidNode);
        if reply == Done {
          Remove(lease.node);
        }
      case RegisterName(lease, name, ref) => reply := BindName(source, lease, name, ref);
      case UnregisterName(lease, name, ref) => reply := UnbindName(source, lease, name, ref);
      case Read => reply := NoReply;
    }

    /** Done, or what is wrong with a command of `source` under the lease. */
    method CheckLease(lease: Lease, source: Ref, invalid: Reply) returns (reply: Reply)
      requires Refusal(invalid)
      ensures reply == if !ValidLease(lease) then invalid else LeaseReply(Abs(), lease, source, Done)
      ensures reply == Done <==> Authorised(Abs(), lease, source)
    {
      if !ValidLease(lease) {
        return invalid;
      }
      if !Active(nodes, lease) {
        return LeaseExpired;
      }
      if nodes[lease.node].owner != source {
        return OwnerMismatch;
      }
      reply := Done;
    }

    method Register(now: int, source: Ref, node: nat, address: bool) returns (reply: Reply)
      requires Indexed(Abs())
      modifies this
      ensures Abs() == if reply.Leased? then Enrol(old(Abs()), node, source, now + ttl) else old(Abs())
      ensures reply == if node == 0 || !address then InvalidNode
                       else if source.node != node then OwnerMismatch
                       else Leased(Lease(node, epoch, NextGeneration(old(next))), now + ttl)
    {
      if node == 0 || !address {
        return InvalidNode;
      }
      if source.node != node {
        return OwnerMismatch;
      }
      ghost var was := Abs();
      Remove(node);
      assert nodes == was.nodes - {node};
      next := next + 1;
      if next >= GENERATIONS {
        next := 1;
      }
      nodes := nodes[node := Registration(epoch, next, source, now + ttl)];
      reply := Leased(Lease(node, epoch, next), now + ttl);
    }

    method BindName(source: Ref, lease: Lease, name: nat, ref: Ref) returns (reply: Reply)
      modifies this`names, this`byLease
      ensures Abs() == if reply == Done then Bind(old(Abs()), lease, name, ref) else old(Abs())
      ensures reply ==
        if !ValidLease(lease) || !ValidBinding(lease, name, ref) then InvalidName
        else LeaseReply(old(Abs()), lease, source,
                        if name in old(names) && old(names)[name].owner != lease then NameConflict else Done)
    {
      if !ValidBinding(lease, name, ref) {
        return InvalidName;
      }
      reply := CheckLease(lease, source, InvalidName);
      if reply != Done {
        return;
      }
      if name in names && names[name].owner != lease {
        return NameConflict;
      }
      names := names[name := Binding(ref, lease)];
      var owned := if lease in byLease then byLease[lease] else {};
      byLease := byLease[lease := owned + {name}];
    }

    method UnbindName(source: Ref, lease: Lease, name: nat, ref: Ref) returns (reply: Reply)
      requires Indexed(Abs())
      modifies this`names, this`byLease
      ensures Abs() == if reply == Done then Unbind(old(Abs()), lease, name) else old(Abs())
      ensures reply ==
        if !ValidLease(lease) || !ValidBinding(lease, name, ref) then InvalidName
        else
          var bound := name in old(names) && old(names)[name] == Binding(ref, lease);
          LeaseReply(old(Abs()), lease, source, if bound then Done else NameNotFound)
    {
      if !ValidBinding(lease, name, ref) {
        return InvalidName;
      }
      reply := CheckLease(lease, source, InvalidName);
      if reply != Done {
        return;
      }
      if name !in names || names[name] != Binding(ref, lease) {
        return NameNotFound;
      }
      assert NameSound(Abs(), name);
      names := names - {name};
      var owned := byLease[lease] - {name};
      byLease := byLease[lease := owned];
      if owned == {} {
        byLease := byLease - {lease};
      }
    }

    /** A name resolves to its service; the lease behind it is always current. */
    method Resolve(name: nat) returns (found: bool, ref: Ref)
      requires Indexed(Abs())
      ensures found <==> name in names
      ensures found ==> ref == names[name].ref && Active(nodes, names[name].owner)
    {
      if name in names { assert NameSound(Abs(), name); }
      if name !in names || !Active(nodes, names[name].owner) {
        return false, Ref(0, 0);
      }
      return true, names[name].ref;
    }
  }
}
