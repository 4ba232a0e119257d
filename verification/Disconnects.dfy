/**
 The callbacks registered with a transport: an intrusive, circular, doubly
 linked list that is walked while each callback unlinks its own node.
 */
module Disconnects {

  class Node {
    var next: Node
    var prev: Node

    constructor ()
      ensures next == this && prev == this
    {
      next, prev := this, this;
    }
  }

  /** The node after, or before, position i of the ring head, nodes[0], nodes[1], ... */
  function After(head: Node, nodes: seq<Node>, i: int): (r: Node)
    requires -1 <= i < |nodes|
  {
    if i + 1 < |nodes| then nodes[i + 1] else head
  }

  function Before(head: Node, nodes: seq<Node>, i: int): (r: Node)
    requires 0 <= i <= |nodes|
  {
    if i == 0 then head else nodes[i - 1]
  }

  ghost predicate Ring(head: Node, nodes: seq<Node>)
    reads head, nodes
  {
    && head !in nodes
    && (forall i, j :: 0 <= i < j < |nodes| ==> nodes[i] != nodes[j])
    && head.next == After(head, nodes, -1)
    && head.prev == Before(head, nodes, |nodes|)
    && (forall i {:trigger nodes[i].next} :: 0 <= i < |nodes| ==> nodes[i].next == After(head, nodes, i))
    && (forall i {:trigger nodes[i].prev} :: 0 <= i < |nodes| ==> nodes[i].prev == Before(head, nodes, i))
  }

  class Transport {
    const head: Node               // the list head inside the transport
    ghost var nodes: seq<Node>     // the registered callbacks, in order

    ghost predicate Valid()
      reads this, head, nodes
    {
      Ring(head, nodes)
    }

    constructor ()
      ensures Valid() && nodes == [] && fresh(head)
    {
      head := new Node();
      nodes := [];
    }

    /** add_transport_disconnect: link dis in at the end. */
    method AddDisconnect(dis: Node)
      requires Valid() && dis != head && dis !in nodes
      modifies this`nodes, head, nodes, dis
      ensures Valid() && nodes == old(nodes) + [dis]
    {
      dis.next := head;
      dis.prev := head.prev;
      dis.prev.next := dis;
      head.prev := dis;
      nodes := nodes + [dis];
    }

    /** remove_transport_disconnect: unlink dis, the k-th callback, and leave it pointing at itself. */
    method RemoveDisconnect(dis: Node, ghost k: nat)
      requires Valid() && k < |nodes| && nodes[k] == dis
      modifies this`nodes, head, nodes
      ensures Valid() && nodes == old(nodes)[..k] + old(nodes)[k + 1..]
      ensures dis.next == dis && dis.prev == dis
    {
      dis.prev.next := dis.next;
      dis.next.prev := dis.prev;
      dis.next, dis.prev := dis, dis;
      nodes := nodes[..k] + nodes[k + 1..];
      forall i | 0 <= i < |nodes|
        ensures nodes[i].next == After(head, nodes, i) && nodes[i].prev == Before(head, nodes, i)
      {
        ghost var j := if i < k then i else i + 1;
        assert nodes[i] == old(nodes)[j] && nodes[i] != dis;
        assert old(nodes)[j].next == if j + 1 == k then old(dis.next) else old(nodes[j].next);
        assert old(nodes)[j].prev == if j == k + 1 then old(dis.prev) else old(nodes[j].prev);
      }
    }

    /**
     run_transport_disconnects: the successor is read before a callback runs, since
     the callback unlinks its own node.  Every callback runs once, in order.
     */
    method RunDisconnects() returns (called: seq<Node>)
      requires Valid()
      modifies this`nodes, head, nodes
      ensures Valid() && nodes == [] && called == old(nodes)
    {
      called := [];
      var dis := head.next;
      while dis != head
        invariant Valid() && |called| <= |old(nodes)|
        invariant called == old(nodes)[..|called|] && nodes == old(nodes)[|called|..]
        invariant dis == After(head, nodes, -1)
        decreases |nodes|
      {
        var next := dis.next;
        RemoveDisconnect(dis, 0);
        called := called + [dis];
        dis := next;
      }
    }
  }
}
