/**
 How the network learns about a new server (protocol/native.c): whoever is told passes the
 introduction on to all its direct links but the one it came from. The links of the network
 form a tree; messages may be delivered in any order.
 */
module Flooding {
  import opened LinkedLists

  type Node = nat

  /** An introduction on its way from one server to a directly linked one. */
  datatype Intro = Intro(from: Node, to: Node, hops: nat)

  /** A direct link; `nline` says that its configuration entry is still known. */
  datatype Link = Link(peer: Node, nline: bool)

  // ------------------------------------------------------------------------------------
  // do_inform_remote_servers
  // ------------------------------------------------------------------------------------

  /** What server `me` sends when it is told of a server `hops` away by `source`. */
  function Forward(me: Node, links: seq<Link>, source: Node, hops: nat): seq<Intro>
    decreases |links|
  {
    if links == [] then [] else
    (if links[0].peer == source then [] else [Intro(me, links[0].peer, hops + 1)])
    + Forward(me, links[1..], source, hops)
  }

  /** do_inform_remote_servers; `exits` says that the introducing link is closed for a lost N-line. */
  method InformRemoteServers(me: Node, links: seq<Link>, source: Node, hops: nat)
    returns (sent: seq<Intro>, exits: bool, ghost n: nat)
    ensures n <= |links| && sent == Forward(me, links[..n], source, hops)
    ensures exits <==> exists i :: 0 <= i < |links| && links[i].peer != source && !links[i].nline
    ensures exits ==> n < |links| && links[n].peer != source && !links[n].nline
    ensures !exits ==> sent == Forward(me, links, source, hops)
    ensures forall i :: 0 <= i < n ==> links[i].peer == source || links[i].nline
  {
    sent, exits, n := [], false, 0;
    var i := 0;
    while i < |links|
      invariant 0 <= i == n <= |links|
      invariant sent == Forward(me, links[..i], source, hops) && !exits
      invariant forall j :: 0 <= j < i ==> links[j].peer == source || links[j].nline
    {
      var link := links[i];
      assert links[..i + 1] == links[..i] + [link];
      ForwardAppend(me, links[..i], link, source, hops);
      if link.peer != source {
        if !link.nline {
          exits := true;
          return;
        }
        sent := sent + [Intro(me, link.peer, hops + 1)];
      }
      i, n := i + 1, n + 1;
    }
    assert links[..i] == links;
  }

  lemma {:induction false} ForwardAppend(me: Node, links: seq<Link>, link: Link, source: Node, hops: nat)
    ensures Forward(me, links + [link], source, hops) ==
            Forward(me, links, source, hops) + if link.peer == source then [] else [Intro(me, link.peer, hops + 1)]
    decreases |links|
  {
    if links != [] {
      assert (links + [link])[1..] == links[1..] + [link];
      ForwardAppend(me, links[1..], link, source, hops);
    }
  }

  // ------------------------------------------------------------------------------------
  // Tree topology
  // ------------------------------------------------------------------------------------

  /** A network of servers. Which node is taken as the root does not matter. */
  datatype Net = Net(nodes: set<Node>, root: Node, parent: map<Node, Node>, depth: map<Node, nat>, links: map<Node, seq<Link>>)

  ghost predicate Linked(net: Net, u: Node, v: Node) {
    || (v in net.parent && net.parent[v] == u)
    || (u in net.parent && net.parent[u] == v)
  }

  ghost predicate Rooted(net: Net) {
    && net.root in net.nodes && net.parent.Keys == net.nodes - {net.root} && net.depth.Keys == net.nodes
    && (forall v :: v in net.parent ==> net.parent[v] in net.nodes && net.depth[v] == net.depth[net.parent[v]] + 1)
  }

  ghost predicate ListsLinks(net: Net, v: Node)
    requires v in net.links
  {
    && (forall i, j :: 0 <= i < j < |net.links[v]| ==> net.links[v][i].peer != net.links[v][j].peer)
    && (forall i :: 0 <= i < |net.links[v]| ==> Linked(net, v, net.links[v][i].peer) && net.links[v][i].nline)
    && (forall w :: Linked(net, v, w) ==> exists i :: 0 <= i < |net.links[v]| && net.links[v][i].peer == w)
  }

  /** The servers form a tree, and each lists its direct links, each once and with its N-line. */
  ghost predicate IsTree(net: Net) {
    Rooted(net) && net.links.Keys == net.nodes && forall v :: v in net.nodes ==> ListsLinks(net, v)
  }

  ghost predicate Below(net: Net, x: Node, v: Node)
    requires Rooted(net) && x in net.nodes
    decreases net.depth[x]
  {
    x == v || (x in net.parent && Below(net, net.parent[x], v))
  }

  lemma {:induction false} BelowDepth(net: Net, x: Node, v: Node)
    requires Rooted(net) && x in net.nodes && Below(net, x, v)
    ensures v in net.nodes && net.depth[v] <= net.depth[x] && (x != v ==> net.depth[v] < net.depth[x])
    decreases net.depth[x]
  {
    if x != v {
      BelowDepth(net, net.parent[x], v);
    }
  }

  lemma {:induction false} AllBelowRoot(net: Net, x: Node)
    requires Rooted(net) && x in net.nodes
    ensures Below(net, x, net.root)
    decreases net.depth[x]
  {
    if x != net.root {
      AllBelowRoot(net, net.parent[x]);
    }
  }

  /** The child of `v` on the way down to `x`. */
  ghost function ChildToward(net: Net, v: Node, x: Node): (c: Node)
    requires Rooted(net) && x in net.nodes && x != v && Below(net, x, v)
    ensures c in net.parent && net.parent[c] == v && Below(net, x, c)
    decreases net.depth[x]
  {
    if net.parent[x] == v then x else ChildToward(net, v, net.parent[x])
  }

  /** The neighbour of `v` on the way to `x`. */
  ghost function Toward(net: Net, v: Node, x: Node): (w: Node)
    requires Rooted(net) && v in net.nodes && x in net.nodes && x != v
    ensures Linked(net, v, w) && w in net.nodes
  {
    if Below(net, x, v) then ChildToward(net, v, x)
    else
      AllBelowRoot(net, x);
      net.parent[v]
  }

  /** Two children of a node have nothing below in common. */
  lemma {:induction false} ChildUnique(net: Net, c: Node, d: Node, x: Node)
    requires Rooted(net) && x in net.nodes && c in net.parent && d in net.parent && net.parent[c] == net.parent[d]
    requires Below(net, x, c) && Below(net, x, d)
    ensures c == d
    decreases net.depth[x]
  {
    if x == c || x == d {
      BelowDepth(net, x, c);
      BelowDepth(net, x, d);
    } else {
      ChildUnique(net, c, d, net.parent[x]);
    }
  }

  lemma {:induction false} BelowTransitive(net: Net, x: Node, y: Node, z: Node)
    requires Rooted(net) && x in net.nodes && y in net.nodes && Below(net, x, y) && Below(net, y, z)
    ensures Below(net, x, z)
    decreases net.depth[x]
  {
    if x != y {
      BelowTransitive(net, net.parent[x], y, z);
    }
  }

  /** Seen from `p`, its child `c` leads to exactly what is below `c`. */
  lemma TowardChild(net: Net, p: Node, c: Node, x: Node)
    requires Rooted(net) && x in net.nodes && x != p && c in net.parent && net.parent[c] == p
    ensures Toward(net, p, x) == c <==> Below(net, x, c)
  {
    hide ChildToward;
    if Below(net, x, c) {
      assert Below(net, c, p);
      BelowTransitive(net, x, c, p);
      ChildUnique(net, c, ChildToward(net, p, x), x);
    } else if !Below(net, x, p) {
      AllBelowRoot(net, x);
      assert net.depth[c] == net.depth[net.parent[p]] + 2;
    }
  }

  /** Seen from `c`, its parent leads to exactly what is not below `c`. */
  lemma TowardParent(net: Net, p: Node, c: Node, x: Node)
    requires Rooted(net) && x in net.nodes && x != c && c in net.parent && net.parent[c] == p
    ensures Toward(net, c, x) == p <==> !Below(net, x, c)
  {
    if Below(net, x, c) {
      var d := ChildToward(net, c, x);
      assert net.depth[d] == net.depth[p] + 2;
    }
  }

  /** Across a link, the two ends lead to each other for complementary parts of the network. */
  lemma Across(net: Net, u: Node, v: Node, x: Node)
    requires Rooted(net) && u in net.nodes && v in net.nodes && x in net.nodes
    requires Linked(net, u, v) && x != u && x != v
    ensures Toward(net, u, x) == v <==> Toward(net, v, x) != u
  {
    if v in net.parent && net.parent[v] == u {
      TowardChild(net, u, v, x);
      TowardParent(net, u, v, x);
    } else {
      TowardChild(net, v, u, x);
      TowardParent(net, v, u, x);
    }
  }

  lemma TowardNeighbour(net: Net, u: Node, v: Node)
    requires Rooted(net) && u in net.nodes && v in net.nodes && u != v && Linked(net, u, v)
    ensures Toward(net, u, v) == v
  {
    if v in net.parent && net.parent[v] == u {
      TowardChild(net, u, v, v);
    } else {
      TowardParent(net, v, u, v);
      if Below(net, v, u) {
        BelowDepth(net, v, u);
      }
    }
  }

  /** The number of links between two nodes. */
  ghost function Dist(net: Net, v: Node, x: Node): nat
    requires Rooted(net) && v in net.nodes && x in net.nodes
    decreases !Below(net, x, v), if !Below(net, x, v) then net.depth[v] else if net.depth[v] < net.depth[x] then net.depth[x] - net.depth[v] else 0
  {
    if v == x then 0
    else
      StepsCloser(net, v, x);
      1 + Dist(net, Toward(net, v, x), x)
  }

  lemma StepsCloser(net: Net, v: Node, x: Node)
    requires Rooted(net) && v in net.nodes && x in net.nodes && v != x
    ensures var w := Toward(net, v, x);
            if Below(net, x, v) then Below(net, x, w) && net.depth[w] == net.depth[v] + 1 && net.depth[w] <= net.depth[x]
            else net.depth[w] < net.depth[v]
  {
    if Below(net, x, v) {
      BelowDepth(net, x, ChildToward(net, v, x));
    } else {
      AllBelowRoot(net, x);
    }
  }

  // ------------------------------------------------------------------------------------
  // The flood
  // ------------------------------------------------------------------------------------

  /** The introductions in flight, the hop count that each informed server has stored, and who was told in which order. */
  datatype Flood = Flood(pending: seq<Intro>, hops: map<Node, nat>, told: seq<Node>)

  /** The server `origin`, to which the new server has linked, tells all its links. */
  function Start(net: Net, origin: Node, hops: nat, link: Node): Flood
    requires origin in net.links
  {
    Flood(Forward(origin, net.links[origin], link, hops), map[origin := hops], [])
  }

  /** The introduction at position `i` arrives, is stored, and is passed on. */
  function Deliver(net: Net, f: Flood, i: nat): Flood
    requires i < |f.pending| && f.pending[i].to in net.links
  {
    var m := f.pending[i];
    Flood(f.pending[..i] + f.pending[i + 1..] + Forward(m.to, net.links[m.to], m.from, m.hops),
          f.hops[m.to := m.hops], f.told + [m.to])
  }

  /** The servers that hear of the introduction `m` or of what follows from it. */
  ghost function Side(net: Net, m: Intro): set<Node>
    requires Rooted(net)
  {
    set x | m.from in net.nodes && x in net.nodes && x != m.from && Toward(net, m.from, x) == m.to
  }

  ghost predicate CrossesLink(net: Net, m: Intro) {
    m.from in net.nodes && m.to in net.nodes && m.from != m.to && Linked(net, m.from, m.to)
  }

  /** An introduction crosses a link out of an informed server and reaches uninformed ones only. */
  ghost predicate GoodIntro(net: Net, hops: map<Node, nat>, m: Intro)
    requires Rooted(net)
  {
    CrossesLink(net, m) && m.from in hops && m.hops == hops[m.from] + 1 && Side(net, m) !! hops.Keys
  }

  ghost predicate AllApart(net: Net, ms: seq<Intro>)
    requires Rooted(net)
  {
    forall i, j :: 0 <= i < j < |ms| ==> Side(net, ms[i]) !! Side(net, ms[j])
  }

  ghost predicate Covers(net: Net, ms: seq<Intro>, x: Node)
    requires Rooted(net)
  {
    exists i :: 0 <= i < |ms| && x in Side(net, ms[i])
  }

  /** What is in flight divides the uninformed servers among itself. */
  ghost predicate PendingInv(net: Net, pending: seq<Intro>, hops: map<Node, nat>)
    requires Rooted(net)
  {
    && (forall i :: 0 <= i < |pending| ==> GoodIntro(net, hops, pending[i]))
    && AllApart(net, pending)
    && (forall x :: x in net.nodes && x !in hops ==> Covers(net, pending, x))
  }

  /** Informed servers have been told once, and know how far the new server is. */
  ghost predicate ToldInv(net: Net, origin: Node, hops: nat, f: Flood)
    requires Rooted(net) && origin in net.nodes
  {
    && origin in f.hops && f.hops.Keys <= net.nodes
    && (forall x :: x in f.hops ==> f.hops[x] == hops + Dist(net, x, origin))
    && (forall x :: x in f.told <==> x in f.hops && x != origin)
    && (forall i, j :: 0 <= i < j < |f.told| ==> f.told[i] != f.told[j])
  }

  ghost predicate FloodInv(net: Net, origin: Node, hops: nat, f: Flood)
    requires Rooted(net) && origin in net.nodes
  {
    PendingInv(net, f.pending, f.hops) && ToldInv(net, origin, hops, f)
  }

  /** An introduction that crosses a link reaches its target and not its sender. */
  lemma ReachesTarget(net: Net, m: Intro)
    requires Rooted(net) && CrossesLink(net, m)
    ensures m.to in Side(net, m) && m.from !in Side(net, m)
  {
    hide Toward;
    TowardNeighbour(net, m.from, m.to);
  }

  /** What is passed on reaches part of what `m` reached, beyond its target. */
  lemma PassedOn(net: Net, m: Intro, w: Node, hops: nat)
    requires Rooted(net) && CrossesLink(net, m) && w != m.from
    ensures Side(net, Intro(m.to, w, hops)) <= Side(net, m) - {m.to}
  {
    hide Toward;
    forall x | x in Side(net, Intro(m.to, w, hops)) ensures x in Side(net, m) {
      if x == m.from {
        TowardNeighbour(net, m.to, m.from);
      } else {
        Across(net, m.from, m.to, x);
      }
    }
  }

  /** From the target of `m`, nothing that `m` reached lies back across the link. */
  lemma NotBack(net: Net, m: Intro, x: Node)
    requires Rooted(net) && CrossesLink(net, m) && x in Side(net, m) && x != m.to
    ensures Toward(net, m.to, x) != m.from
  {
    hide Toward, Linked;
    Across(net, m.from, m.to, x);
  }

  /** From the target of `m`, the way to a server that `m` does not reach leads back across the link. */
  lemma WayBack(net: Net, m: Intro, x: Node)
    requires Rooted(net) && CrossesLink(net, m) && x in net.nodes && x !in Side(net, m) && x != m.to
    ensures Toward(net, m.to, x) == m.from
  {
    hide Toward;
    if x == m.from {
      TowardNeighbour(net, m.to, m.from);
    } else {
      Across(net, m.from, m.to, x);
    }
  }

  lemma {:induction false} ForwardMembers(me: Node, links: seq<Link>, source: Node, hops: nat)
    ensures forall m :: m in Forward(me, links, source, hops) ==>
              m.from == me && m.hops == hops + 1 && m.to != source && exists i :: 0 <= i < |links| && links[i].peer == m.to
    ensures forall i :: 0 <= i < |links| && links[i].peer != source ==>
              Intro(me, links[i].peer, hops + 1) in Forward(me, links, source, hops)
    decreases |links|
  {
    if links != [] {
      ForwardMembers(me, links[1..], source, hops);
      var all := Forward(me, links, source, hops);
      forall m | m in all ensures exists i :: 0 <= i < |links| && links[i].peer == m.to {
        if m in Forward(me, links[1..], source, hops) {
          var i :| 0 <= i < |links[1..]| && links[1..][i].peer == m.to;
          assert links[i + 1].peer == m.to;
        }
      }
      forall i | 0 <= i < |links| && links[i].peer != source ensures Intro(me, links[i].peer, hops + 1) in all {
        if i > 0 {
          assert links[1..][i - 1] == links[i];
        }
      }
    }
  }

  ghost predicate TargetsDiffer(ms: seq<Intro>) {
    forall i, j :: 0 <= i < j < |ms| ==> ms[i].to != ms[j].to
  }

  lemma {:induction false} ForwardDistinct(me: Node, links: seq<Link>, source: Node, hops: nat)
    requires forall i, j :: 0 <= i < j < |links| ==> links[i].peer != links[j].peer
    ensures TargetsDiffer(Forward(me, links, source, hops))
    decreases |links|
  {
    if links != [] {
      ForwardDistinct(me, links[1..], source, hops);
      ForwardMembers(me, links[1..], source, hops);
      var rest := Forward(me, links[1..], source, hops);
      forall j | 0 <= j < |rest| ensures rest[j].to != links[0].peer {
        assert rest[j] in rest;
        var i :| 0 <= i < |links[1..]| && links[1..][i].peer == rest[j].to;
        assert links[i + 1].peer == rest[j].to;
      }
      var all := Forward(me, links, source, hops);
      if links[0].peer != source {
        forall i, j | 0 <= i < j < |all| ensures all[i].to != all[j].to {
          assert all[j] == rest[j - 1] && (i > 0 ==> all[i] == rest[i - 1]);
        }
      }
    }
  }

  lemma LinkOf(net: Net, v: Node, w: Node) returns (i: nat)
    requires IsTree(net) && v in net.nodes && Linked(net, v, w)
    ensures i < |net.links[v]| && net.links[v][i].peer == w
  {
    hide Linked;
    i :| 0 <= i < |net.links[v]| && net.links[v][i].peer == w;
  }

  /** The introductions that server `v` sends on. */
  function Caused(net: Net, v: Node, source: Node, hops: nat): seq<Intro>
    requires v in net.links
  {
    Forward(v, net.links[v], source, hops)
  }

  lemma CausedCross(net: Net, v: Node, source: Node, hops: nat, k: nat)
    requires IsTree(net) && v in net.nodes && k < |Caused(net, v, source, hops)|
    ensures var m := Caused(net, v, source, hops)[k];
            m == Intro(v, m.to, hops + 1) && m.to != source && CrossesLink(net, m)
  {
    ForwardMembers(v, net.links[v], source, hops);
    var m := Caused(net, v, source, hops)[k];
    assert m in Caused(net, v, source, hops);
    var i :| 0 <= i < |net.links[v]| && net.links[v][i].peer == m.to;
    assert Linked(net, v, m.to);
  }

  lemma CausedApart(net: Net, v: Node, source: Node, hops: nat)
    requires IsTree(net) && v in net.nodes
    ensures AllApart(net, Caused(net, v, source, hops))
  {
    hide Toward, Linked;
    var all := Caused(net, v, source, hops);
    assert ListsLinks(net, v);
    ForwardDistinct(v, net.links[v], source, hops);
    forall i, j | 0 <= i < j < |all| ensures Side(net, all[i]) !! Side(net, all[j]) {
      CausedCross(net, v, source, hops, i);
      CausedCross(net, v, source, hops, j);
      assert all[i].to != all[j].to;
      assert all[i].from == v == all[j].from;
    }
  }

  /** Every server that does not lie toward the source is reached by what is sent on. */
  lemma CausedCovers(net: Net, v: Node, source: Node, hops: nat, x: Node)
    requires IsTree(net) && v in net.nodes && x in net.nodes && x != v && Toward(net, v, x) != source
    ensures Covers(net, Caused(net, v, source, hops), x)
  {
    hide Linked;
    var w := Toward(net, v, x);
    var i := LinkOf(net, v, w);
    ForwardMembers(v, net.links[v], source, hops);
    var m := Intro(v, w, hops + 1);
    assert m in Caused(net, v, source, hops);
    var k :| 0 <= k < |Caused(net, v, source, hops)| && Caused(net, v, source, hops)[k] == m;
    hide Toward;
    assert x in Side(net, m);
  }

  lemma StartKeeps(net: Net, origin: Node, hops: nat, link: Node)
    requires IsTree(net) && origin in net.nodes && link !in net.nodes
    ensures FloodInv(net, origin, hops, Start(net, origin, hops, link))
  {
    hide Toward, Linked, ListsLinks, Side, Forward;
    var f := Start(net, origin, hops, link);
    assert f.pending == Caused(net, origin, link, hops);
    CausedApart(net, origin, link, hops);
    forall i | 0 <= i < |f.pending| ensures GoodIntro(net, f.hops, f.pending[i]) {
      CausedCross(net, origin, link, hops, i);
      ReachesTarget(net, f.pending[i]);
    }
    forall x | x in net.nodes && x !in f.hops ensures Covers(net, f.pending, x) {
      CausedCovers(net, origin, link, hops, x);
    }
  }

  lemma DeliverTold(net: Net, origin: Node, hops: nat, f: Flood, i: nat)
    requires IsTree(net) && origin in net.nodes && FloodInv(net, origin, hops, f) && i < |f.pending|
    ensures f.pending[i].to in net.links && f.pending[i].to !in f.hops
    ensures ToldInv(net, origin, hops, Deliver(net, f, i))
  {
    hide Toward, Linked, ListsLinks, Side, AllApart, Covers, Forward;
    var m := f.pending[i];
    assert GoodIntro(net, f.hops, m);
    ReachesTarget(net, m);
    WayBack(net, m, origin);
  }

  /** The introductions that stay in flight when number `i` arrives. */
  function Others(pending: seq<Intro>, i: nat): seq<Intro>
    requires i < |pending|
  {
    pending[..i] + pending[i + 1..]
  }

  lemma OthersGood(net: Net, pending: seq<Intro>, hops: map<Node, nat>, i: nat, k: nat)
    requires Rooted(net) && PendingInv(net, pending, hops) && i < |pending| && k < |pending| - 1
    ensures var m, o := pending[i], Others(pending, i)[k];
            GoodIntro(net, hops[m.to := m.hops], o) && Side(net, o) !! Side(net, m)
  {
    hide Side, Linked, Covers;
    var m := pending[i];
    var b := if k < i then k else k + 1;
    assert Others(pending, i)[k] == pending[b];
    assert GoodIntro(net, hops, pending[b]) && GoodIntro(net, hops, m);
    ReachesTarget(net, m);
  }

  lemma CausedGood(net: Net, m: Intro, hops: map<Node, nat>, k: nat)
    requires IsTree(net) && GoodIntro(net, hops, m) && k < |Caused(net, m.to, m.from, m.hops)|
    ensures var m' := Caused(net, m.to, m.from, m.hops)[k];
            GoodIntro(net, hops[m.to := m.hops], m') && Side(net, m') <= Side(net, m)
  {
    hide Side, Linked, ListsLinks;
    CausedCross(net, m.to, m.from, m.hops, k);
    var m' := Caused(net, m.to, m.from, m.hops)[k];
    PassedOn(net, m, m'.to, m.hops + 1);
  }

  lemma DeliverPending(net: Net, pending: seq<Intro>, hops: map<Node, nat>, i: nat)
    requires IsTree(net) && PendingInv(net, pending, hops) && i < |pending| && pending[i].to in net.links
    ensures var m := pending[i];
            PendingInv(net, Others(pending, i) + Caused(net, m.to, m.from, m.hops), hops[m.to := m.hops])
  {
    hide Side, Linked, ListsLinks, Forward;
    var m := pending[i];
    assert GoodIntro(net, hops, m);
    var kept, sent := Others(pending, i), Caused(net, m.to, m.from, m.hops);
    var all := kept + sent;
    forall a | 0 <= a < |all|
      ensures GoodIntro(net, hops[m.to := m.hops], all[a])
      ensures if a < |kept| then Side(net, all[a]) !! Side(net, m) else Side(net, all[a]) <= Side(net, m)
    {
      if a < |kept| {
        OthersGood(net, pending, hops, i, a);
      } else {
        CausedGood(net, m, hops, a - |kept|);
      }
    }
    CausedApart(net, m.to, m.from, m.hops);
    forall a, b | 0 <= a < b < |all| ensures Side(net, all[a]) !! Side(net, all[b]) {
      if b < |kept| {
        OthersApart(net, pending, i, a, b);
      } else if a >= |kept| {
        assert Side(net, sent[a - |kept|]) !! Side(net, sent[b - |kept|]);
      }
    }
    forall x | x in net.nodes && x !in hops && x != m.to ensures Covers(net, all, x) {
      StillCovered(net, pending, hops, i, x);
    }
  }

  lemma OthersApart(net: Net, pending: seq<Intro>, i: nat, a: nat, b: nat)
    requires Rooted(net) && AllApart(net, pending) && i < |pending| && a < b < |pending| - 1
    ensures Side(net, Others(pending, i)[a]) !! Side(net, Others(pending, i)[b])
  {
    hide Side;
    assert Others(pending, i)[a] == pending[if a < i then a else a + 1];
    assert Others(pending, i)[b] == pending[if b < i then b else b + 1];
  }

  lemma StillCovered(net: Net, pending: seq<Intro>, hops: map<Node, nat>, i: nat, x: Node)
    requires IsTree(net) && PendingInv(net, pending, hops) && i < |pending| && pending[i].to in net.links
    requires x in net.nodes && x !in hops && x != pending[i].to
    ensures var m := pending[i]; Covers(net, Others(pending, i) + Caused(net, m.to, m.from, m.hops), x)
  {
    hide Side, Linked, ListsLinks, Forward;
    var m := pending[i];
    var kept, sent := Others(pending, i), Caused(net, m.to, m.from, m.hops);
    var a :| 0 <= a < |pending| && x in Side(net, pending[a]);
    if a == i {
      assert GoodIntro(net, hops, m);
      NotBack(net, m, x);
      CausedCovers(net, m.to, m.from, m.hops, x);
      var k :| 0 <= k < |sent| && x in Side(net, sent[k]);
      assert (kept + sent)[|kept| + k] == sent[k];
    } else {
      var b := if a < i then a else a - 1;
      assert (kept + sent)[b] == pending[a];
    }
  }

  /** Whatever arrives next, the invariant is kept and one more server is told. */
  lemma DeliverKeeps(net: Net, origin: Node, hops: nat, f: Flood, i: nat)
    requires IsTree(net) && origin in net.nodes && FloodInv(net, origin, hops, f) && i < |f.pending|
    ensures f.pending[i].to in net.links && f.pending[i].to !in f.hops
    ensures FloodInv(net, origin, hops, Deliver(net, f, i))
  {
    hide PendingInv, ToldInv;
    DeliverTold(net, origin, hops, f, i);
    DeliverPending(net, f.pending, f.hops, i);
    assert Deliver(net, f, i).pending == Others(f.pending, i) + Caused(net, f.pending[i].to, f.pending[i].from, f.pending[i].hops);
  }

  /** Any run of the flood: each state follows from the one before by one delivery. */
  ghost predicate IsRun(net: Net, origin: Node, hops: nat, link: Node, run: seq<Flood>)
    requires origin in net.links
  {
    && |run| > 0 && run[0] == Start(net, origin, hops, link)
    && forall k :: 0 <= k < |run| - 1 ==> IsStep(net, run[k], run[k + 1])
  }

  ghost predicate IsStep(net: Net, f: Flood, f': Flood) {
    exists i :: 0 <= i < |f.pending| && f.pending[i].to in net.links && f' == Deliver(net, f, i)
  }

  lemma {:induction false} RunKeeps(net: Net, origin: Node, hops: nat, link: Node, run: seq<Flood>, n: nat)
    requires IsTree(net) && origin in net.nodes && link !in net.nodes && IsRun(net, origin, hops, link, run)
    requires n < |run|
    ensures FloodInv(net, origin, hops, run[n]) && |run[n].told| == n
    decreases n
  {
    hide FloodInv, ListsLinks, Rooted, Forward;
    if n == 0 {
      StartKeeps(net, origin, hops, link);
    } else {
      RunKeeps(net, origin, hops, link, run, n - 1);
      assert IsStep(net, run[n - 1], run[n]);
      var i :| 0 <= i < |run[n - 1].pending| && run[n - 1].pending[i].to in net.links && run[n] == Deliver(net, run[n - 1], i);
      DeliverKeeps(net, origin, hops, run[n - 1], i);
    }
  }

  lemma ToldCount(net: Net, origin: Node, hops: nat, f: Flood)
    requires Rooted(net) && origin in net.nodes && ToldInv(net, origin, hops, f)
    ensures |f.told| <= |net.nodes| - 1
    ensures |f.told| == |net.nodes| - 1 <==> f.hops.Keys == net.nodes
  {
    hide Dist;
    DistinctSize(f.told);
    assert SetOf(f.told) == f.hops.Keys - {origin};
    SubsetSize(f.hops.Keys, net.nodes);
  }

  lemma SubsetSize(a: set<Node>, b: set<Node>)
    requires a <= b
    ensures |a| <= |b| && (|a| == |b| <==> a == b)
  {
    assert b == a + (b - a);
  }

  /** Nothing is in flight exactly when every server has been told. */
  lemma QuietIffAllTold(net: Net, origin: Node, hops: nat, f: Flood)
    requires Rooted(net) && origin in net.nodes && FloodInv(net, origin, hops, f)
    ensures f.pending == [] <==> f.hops.Keys == net.nodes
  {
    hide Side, Linked, ListsLinks, Dist;
    if f.pending == [] {
      forall x | x in net.nodes ensures x in f.hops {
        assert x !in f.hops ==> Covers(net, f.pending, x);
      }
    } else {
      assert GoodIntro(net, f.hops, f.pending[0]);
      ReachesTarget(net, f.pending[0]);
    }
  }

  /** What each server was told, and by how many introductions. */
  lemma ToldOnce(net: Net, origin: Node, hops: nat, f: Flood)
    requires Rooted(net) && origin in net.nodes && FloodInv(net, origin, hops, f)
    ensures forall i, j :: 0 <= i < j < |f.told| ==> f.told[i] != f.told[j]
    ensures forall x :: x in f.hops ==> x in net.nodes && f.hops[x] == hops + Dist(net, x, origin)
    ensures ToldInv(net, origin, hops, f)
  {
    hide Dist, PendingInv;
  }

  /**
   Flooding on a tree: every run makes at most one delivery per other server, no server is told
   twice, each stores its distance to the new server, and a run that cannot go on has told all.
   */
  lemma FloodReachesAllOnce(net: Net, origin: Node, hops: nat, link: Node, run: seq<Flood>)
    requires IsTree(net) && origin in net.nodes && link !in net.nodes && IsRun(net, origin, hops, link, run)
    ensures var f := run[|run| - 1];
            && |run| <= |net.nodes|
            && (forall i, j :: 0 <= i < j < |f.told| ==> f.told[i] != f.told[j])
            && (forall x :: x in f.hops ==> x in net.nodes && f.hops[x] == hops + Dist(net, x, origin))
            && (f.pending == [] <==> f.hops.Keys == net.nodes)
            && (f.pending == [] <==> |run| == |net.nodes|)
  {
    hide FloodInv, ToldInv, Rooted, ListsLinks, Dist;
    var f := run[|run| - 1];
    RunKeeps(net, origin, hops, link, run, |run| - 1);
    ToldOnce(net, origin, hops, f);
    ToldCount(net, origin, hops, f);
    QuietIffAllTold(net, origin, hops, f);
  }
}
