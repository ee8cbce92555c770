/**
 What the neighbours of a server learn: the SQUITs of a split (server/s_exit.c) and the burst
 that introduces the network to a new link (protocol/native.c).
 */
module SplitHorizon {
  import opened LinkedLists
  import opened Netsplit

  // ------------------------------------------------------------------------------------
  // Split notices
  // ------------------------------------------------------------------------------------

  function ReceivedBy(msgs: seq<Msg>, to: Id): seq<Msg>
    decreases |msgs|
  {
    if msgs == [] then [] else
    (if msgs[0].to == to then [msgs[0]] else []) + ReceivedBy(msgs[1..], to)
  }

  lemma {:induction false} ReceivedByAppend(a: seq<Msg>, b: seq<Msg>, to: Id)
    ensures ReceivedBy(a + b, to) == ReceivedBy(a, to) + ReceivedBy(b, to)
    decreases |a|
  {
    if a == [] {
      assert a + b == b;
    } else {
      assert (a + b)[1..] == a[1..] + b && (a + b)[0] == a[0];
      ReceivedByAppend(a[1..], b, to);
      var first := if a[0].to == to then [a[0]] else [];
      assert ReceivedBy(a + b, to) == first + ReceivedBy(a[1..] + b, to);
    }
  }

  /** One SQUIT for each lost server, in order. */
  function Notices(me: Id, c: Clients, to: Id, lost: seq<Id>): seq<Msg>
    decreases |lost|
  {
    if lost == [] then [] else
    var n := |lost| - 1;
    var from := if lost[n] in c then c[lost[n]].from else me;
    Notices(me, c, to, lost[..n]) + [Squit(to, from == to, lost[n])]
  }

  lemma {:induction false} SquitToReceived(links: seq<Id>, me: Id, source: Id, from: Id, x: Id, to: Id)
    requires Distinct(links)
    ensures ReceivedBy(SquitTo(links, me, source, from, x), to) ==
            if to in links && to != me && to != x && to != source then [Squit(to, from == to, x)] else []
    decreases |links|
  {
    if links != [] {
      var l := links[0];
      var first := if l == me || l == x || l == source then [] else [Squit(l, from == l, x)];
      ReceivedByAppend(first, SquitTo(links[1..], me, source, from, x), to);
      SquitToReceived(links[1..], me, source, from, x, to);
      assert forall k :: k in links <==> k == l || k in links[1..];
      assert l !in links[1..];
    }
  }

  lemma {:induction false} AnnounceReceived(links: seq<Id>, me: Id, source: Id, c: Clients, lost: seq<Id>, to: Id)
    requires Distinct(links) && to !in lost && to != me
    ensures ReceivedBy(Announce(links, me, source, c, lost), to) ==
            if to in links && to != source then Notices(me, c, to, lost) else []
    decreases |lost|
  {
    if lost != [] {
      var n := |lost| - 1;
      var from := if lost[n] in c then c[lost[n]].from else me;
      AnnounceReceived(links, me, source, c, lost[..n], to);
      SquitToReceived(links, me, source, from, lost[n], to);
      ReceivedByAppend(Announce(links, me, source, c, lost[..n]), SquitTo(links, me, source, from, lost[n]), to);
    }
  }

  lemma {:induction false} OnlySquits(links: seq<Id>, me: Id, source: Id, c: Clients, lost: seq<Id>)
    ensures forall m :: m in Announce(links, me, source, c, lost) ==> m.Squit?
    decreases |lost|
  {
    if lost != [] {
      var n := |lost| - 1;
      var from := if lost[n] in c then c[lost[n]].from else me;
      OnlySquits(links, me, source, c, lost[..n]);
      SquitToIsSquit(links, me, source, from, lost[n]);
    }
  }

  lemma {:induction false} SquitToIsSquit(links: seq<Id>, me: Id, source: Id, from: Id, x: Id)
    ensures forall m :: m in SquitTo(links, me, source, from, x) ==> m.Squit?
    decreases |links|
  {
    if links != [] {
      SquitToIsSquit(links[1..], me, source, from, x);
    }
  }

  lemma {:induction false} OnlyServersMembers(c: Clients, xs: seq<Id>)
    ensures forall x :: x in OnlyServers(c, xs) <==> x in xs && IsServer(c, x)
    decreases |xs|
  {
    if xs != [] {
      var n := |xs| - 1;
      OnlyServersMembers(c, xs[..n]);
      assert forall x :: x in xs <==> x in xs[..n] || x == xs[n];
    }
  }

  lemma {:induction false} OnlyServersLeaveFirst(c: Clients, depth: map<Id, nat>, xs: seq<Id>)
    requires LeavesFirst(c, depth, xs)
    ensures LeavesFirst(c, depth, OnlyServers(c, xs))
    decreases |xs|
  {
    hide Under, IsServer;
    if xs != [] {
      var n := |xs| - 1;
      OnlyServersLeaveFirst(c, depth, xs[..n]);
      OnlyServersMembers(c, xs[..n]);
      var few := OnlyServers(c, xs[..n]);
      forall i | 0 <= i < |few| ensures !Under(c, depth, xs[n], few[i]) {
        assert few[i] in xs[..n];
        var j :| 0 <= j < n && xs[j] == few[i];
      }
    }
  }

  /** The servers that a split takes along, as its notices name them. */
  ghost function Lost(w: World, x: Id, gone: seq<Id>): seq<Id> {
    OnlyServers(w.clients, gone) + [x]
  }

  /** A split names each lost server once, and a server only after all behind it. */
  lemma LostExactly(me: Id, w: World, w': World, x: Id, source: Id, gone: seq<Id>)
    requires Inv(me, w) && x in w.present && IsServer(w.clients, x) && Exitable(me, w, x)
    requires ClientExits(me, w, w', x, source, gone)
    ensures LeavesFirst(w.clients, w.depth, Lost(w, x, gone)) && Distinct(Lost(w, x, gone))
    ensures forall y :: y in Lost(w, x, gone) <==> y in w.present && IsServer(w.clients, y) && Under(w.clients, w.depth, y, x)
  {
    hide Core, LocalInv, LifeInv, FromInv, ExitMessages, Under;
    LeavesLast(me, w, x, gone);
    OnlyServersLast(w.clients, gone, x);
    OnlyServersLeaveFirst(w.clients, w.depth, gone + [x]);
    OnlyServersMembers(w.clients, gone + [x]);
    forall i, j | 0 <= i < j < |Lost(w, x, gone)| ensures Lost(w, x, gone)[i] != Lost(w, x, gone)[j] {
      UnderSelf(w.clients, w.depth, Lost(w, x, gone)[i]);
    }
    forall y ensures y in Lost(w, x, gone) <==> y in w.present && IsServer(w.clients, y) && Under(w.clients, w.depth, y, x) {
      UnderSelf(w.clients, w.depth, x);
      assert y in gone <==> y in SetOf(gone);
    }
  }

  /**
   Split notification: every other directly linked server, but for the source of the split,
   receives one SQUIT for each lost server, and no server receives a QUIT for anybody.
   */
  lemma SplitNotice(me: Id, w: World, w': World, x: Id, source: Id, gone: seq<Id>, to: Id)
    requires Inv(me, w) && x in w.present && IsServer(w.clients, x) && Exitable(me, w, x)
    requires ClientExits(me, w, w', x, source, gone)
    requires to in w.lists.servs && to != x
    ensures w.sent <= w'.sent
    ensures ReceivedBy(w'.sent[|w.sent|..], to) == if to == source then [] else Notices(me, w.clients, to, Lost(w, x, gone))
    ensures forall m :: m in w'.sent[|w.sent|..] ==> m.Squit?
  {
    hide Core, LifeInv, FromInv, Announce, Notices, Less, Without;
    var links := Departing(w, x).lists.servs;
    var lost := Lost(w, x, gone);
    LostExactly(me, w, w', x, source, gone);
    OnlySquits(links, me, source, w.clients, lost);
    LinksAfter(me, w, x, to);
    if to in Behind(me, w, x) {
      BehindIsRemote(me, w, x, to);
    }
    AnnounceReceived(links, me, source, w.clients, lost, to);
    var msgs := Announce(links, me, source, w.clients, lost);
    assert msgs + [] == msgs;
    assert w'.sent == w.sent + msgs;
    assert w'.sent[|w.sent|..] == msgs;
  }

  lemma LinksAfter(me: Id, w: World, x: Id, to: Id)
    requires Inv(me, w) && x in w.present && to in w.lists.servs && to != x
    ensures var links := Departing(w, x).lists.servs; Distinct(links) && to in links && to != me
    ensures to in w.present && w.clients[to].local
  {
    hide Core, LifeInv, FromInv, Less, Without;
    WithoutSet(w.lists.servs, x);
    WithoutMembers(w.lists.servs, x);
    assert to in SetOf(w.lists.servs);
    CoreFacts(me, w, to);
  }

  lemma {:induction false} QuitToReceived(links: seq<Id>, but: Id, x: Id, to: Id)
    requires Distinct(links)
    ensures ReceivedBy(QuitTo(links, but, x), to) == if to in links && to != but then [Quit(to, x)] else []
    decreases |links|
  {
    if links != [] {
      var first := if links[0] == but then [] else [Quit(links[0], x)];
      ReceivedByAppend(first, QuitTo(links[1..], but, x), to);
      QuitToReceived(links[1..], but, x, to);
      assert forall k :: k in links <==> k == links[0] || k in links[1..];
      assert links[0] !in links[1..];
    }
  }

  lemma {:induction false} QuitToOnly(links: seq<Id>, but: Id, x: Id)
    ensures forall m :: m in QuitTo(links, but, x) ==> m.Quit? && m.about == x && m.to in links
    decreases |links|
  {
    if links != [] {
      QuitToOnly(links[1..], but, x);
      assert forall k :: k in links[1..] ==> k in links;
    }
  }

  /**
   When a user leaves alone, every directly linked server but the one that it is behind receives
   one QUIT for it, and nothing else; after a KILL nobody receives anything.
   */
  lemma UserNotice(me: Id, w: World, w': World, x: Id, source: Id, gone: seq<Id>, to: Id)
    requires Inv(me, w) && x in w.present && w.clients[x].status.Client? && Exitable(me, w, x)
    requires ClientExits(me, w, w', x, source, gone) && to in w.lists.servs
    ensures w.sent <= w'.sent
    ensures ReceivedBy(w'.sent[|w.sent|..], to) ==
            if !w.clients[x].killed && to != w.clients[x].from then [Quit(to, x)] else []
    ensures forall m :: m in w'.sent[|w.sent|..] ==> m.Quit? && m.about == x && m.to in w.lists.servs
  {
    hide Core, LifeInv, FromInv, Announce, QuitTo, Less, Without, Behind;
    LeafAlone(me, w, x, gone);
    LinkIsServer(me, w, to);
    LinksAfter(me, w, x, to);
    var links := Departing(w, x).lists.servs;
    var msgs := ExitMessages(me, Departing(w, x), x, source, false, []);
    AloneSends(me, Departing(w, x), x, source);
    QuitToReceived(links, w.clients[x].from, x, to);
    QuitToOnly(links, w.clients[x].from, x);
    assert w'.sent[|w.sent|..] == msgs;
  }

  /** A client that is neither user nor server leaves without a word. */
  lemma SilentExit(me: Id, w: World, w': World, x: Id, source: Id, gone: seq<Id>)
    requires Inv(me, w) && x in w.present && !w.clients[x].status.Server? && !w.clients[x].status.Client? && Exitable(me, w, x)
    requires ClientExits(me, w, w', x, source, gone)
    ensures w'.sent == w.sent
  {
    hide Core, LifeInv, FromInv, Announce, QuitTo, Less, Without, Behind;
    LeafAlone(me, w, x, gone);
    AloneSends(me, Departing(w, x), x, source);
    assert w.sent + [] == w.sent;
  }

  lemma LinkIsServer(me: Id, w: World, to: Id)
    requires Inv(me, w) && to in w.lists.servs
    ensures to in w.present && to in w.clients && w.clients[to].status.Server?
  {
    hide Core, LifeInv, FromInv;
    assert to in SetOf(w.lists.servs);
    CoreFacts(me, w, to);
  }

  lemma LeafAlone(me: Id, w: World, x: Id, gone: seq<Id>)
    requires Inv(me, w) && x in w.present && x != me && !IsServer(w.clients, x) && SetOf(gone) == Behind(me, w, x)
    ensures gone == []
  {
    hide Inv, Behind;
    InvCore(me, w);
    LeafBehind(me, w, x);
    FirstIn(gone);
  }

  lemma InvCore(me: Id, w: World)
    requires Inv(me, w)
    ensures Core(me, w)
  {
  }

  lemma FirstIn(xs: seq<Id>)
    ensures xs != [] ==> xs[0] in SetOf(xs)
  {
  }

  lemma AloneSends(me: Id, w: World, x: Id, source: Id)
    requires x in w.clients && !w.clients[x].status.Server?
    ensures ExitMessages(me, w, x, source, false, []) ==
            if w.clients[x].status.Client? && !w.clients[x].killed then QuitTo(w.lists.servs, w.clients[x].from, x) else []
  {
    hide QuitTo;
    assert Announce(w.lists.servs, me, source, w.clients, []) == [];
  }

  // ------------------------------------------------------------------------------------
  // The burst to a new link
  // ------------------------------------------------------------------------------------

  /** A client comes through a direct link exactly when it is that server or behind it. */
  lemma {:induction false} FromIsLink(me: Id, w: World, link: Id, x: Id)
    requires Inv(me, w) && link in w.present && IsServer(w.clients, link) && w.clients[link].local
    requires x in w.present && InTree(w.clients[x])
    ensures w.clients[x].from == link <==> Under(w.clients, w.depth, x, link)
    decreases w.depth[x]
  {
    hide ListInv, CountInv, LocalInv, LifeInv;
    assert !Under(w.clients, w.depth, me, link);
    if !w.clients[x].local {
      FromIsLink(me, w, link, w.clients[x].servptr);
    }
  }

  /** do_continue_server_estab: the servers that the link is told about. */
  method ContinueServerEstab(c: Clients, global: seq<Id>, link: Id) returns (named: seq<Id>)
    requires (forall x :: x in global ==> x in c) && Distinct(global)
    ensures Distinct(named)
    ensures forall x :: x in named <==> x in global && IsServer(c, x) && c[x].from != link
  {
    named := [];
    var i := 0;
    while i < |global|
      invariant 0 <= i <= |global|
      invariant Distinct(named)
      invariant forall x :: x in named <==> x in global[..i] && IsServer(c, x) && c[x].from != link
    {
      var target := global[i];
      assert target in global && target !in global[..i];
      assert global[..i + 1] == global[..i] + [target];
      if c[target].from != link && c[target].status.Server? {
        named := named + [target];
      }
      i := i + 1;
    }
    assert global[..i] == global;
  }

  ghost predicate IsBurst(w: World, link: Id, named: seq<Id>) {
    && Distinct(named)
    && forall x :: x in named <==> x in w.global && IsServer(w.clients, x) && w.clients[x].from != link
  }

  /** No server that has exited waits on exit_list. */
  ghost predicate NonePending(w: World) {
    forall x :: x in w.lists.exits ==> !IsServer(w.clients, x)
  }

  lemma BurstMember(me: Id, w: World, link: Id, named: seq<Id>, x: Id)
    requires Inv(me, w) && link in w.present && IsServer(w.clients, link) && w.clients[link].local
    requires IsBurst(w, link, named)
    ensures x in named <==>
            IsServer(w.clients, x) && ((x in w.present && !Under(w.clients, w.depth, x, link)) ||
                                       (x in w.lists.exits && w.clients[x].from != link))
  {
    hide ListInv, CountInv, LocalInv, FromInv, TreeInv, Under;
    assert x in w.global <==> x in SetOf(w.global);
    assert x in w.lists.exits <==> x in SetOf(w.lists.exits);
    if x in w.present && IsServer(w.clients, x) {
      FromIsLink(me, w, link, x);
    }
  }

  /**
   Split horizon: the burst names every server outside the subtree of the link once, and none
   inside, exactly when no exited server is still waiting to be reclaimed.
   */
  lemma BurstExact(me: Id, w: World, link: Id, named: seq<Id>)
    requires Inv(me, w) && link in w.present && IsServer(w.clients, link) && w.clients[link].local
    requires IsBurst(w, link, named)
    ensures (forall x :: x in named <==> x in w.present && IsServer(w.clients, x) && !Under(w.clients, w.depth, x, link))
            <==> NonePending(w)
  {
    hide Core, LocalInv, FromInv, Under;
    forall x ensures x in named <==>
                     IsServer(w.clients, x) && ((x in w.present && !Under(w.clients, w.depth, x, link)) ||
                                                (x in w.lists.exits && w.clients[x].from != link)) {
      BurstMember(me, w, link, named, x);
    }
    if !NonePending(w) {
      var x :| x in w.lists.exits && IsServer(w.clients, x);
      assert x in SetOf(w.lists.exits);
      assert x in named && x !in w.present;
    }
  }

  /** What the burst to a link leaves out is what the exit of that link removes. */
  lemma BurstComplementsSplit(me: Id, w: World, w': World, link: Id, named: seq<Id>, source: Id, gone: seq<Id>, x: Id)
    requires Inv(me, w) && link in w.present && IsServer(w.clients, link) && w.clients[link].local
    requires NonePending(w) && IsBurst(w, link, named) && ClientExits(me, w, w', link, source, gone)
    ensures x in named <==> x in w'.present && IsServer(w'.clients, x)
  {
    hide Core, LocalInv, FromInv, LifeInv, Under;
    BurstMember(me, w, link, named, x);
  }

  /**
   The burst can be wrong: two servers link to us, the first exits, and the second is introduced
   to the network before exit_list is reclaimed. It is told of the first, which is gone.
   */
  method BurstBeforeReclaim(self: Info) returns (ircd: Ircd, named: seq<Id>)
    requires self.status.Me? && !self.local && !self.oper && !self.invisible && !self.httpClient
    ensures Inv(0, ircd.W()) && IsServer(ircd.clients, 2) && 2 in ircd.present && ircd.clients[2].local
    ensures IsBurst(ircd.W(), 2, named) && 1 in named && 1 !in ircd.present && !NonePending(ircd.W())
  {
    hide Core, FromInv, LocalInv, LifeInv, Under, LeavesFirst, ExitMessages;
    ircd := new Ircd(0, self);
    LinkUp(ircd, 1);
    LinkUp(ircd, 2);
    ghost var w := ircd.W();
    MayExit(w, 1);
    ghost var gone := ircd.ExitClient(1, 1);
    SecondStays(w, ircd.W(), gone);
    BurstMembers(0, ircd.W());
    named := ContinueServerEstab(ircd.clients, ircd.global, 2);
    BurstMember(0, ircd.W(), 2, named, 1);
  }

  lemma MayExit(w: World, x: Id)
    requires Inv(0, w) && x in w.present && x != 0 && IsServer(w.clients, x) && w.clients[x] == Linked(0, x)
    ensures Exitable(0, w, x) && x in w.alive
  {
    hide TreeInv, ListInv, CountInv, FromInv, LocalInv;
  }

  lemma SecondStays(w: World, w': World, gone: seq<Id>)
    requires Inv(0, w) && {0, 1, 2} <= w.present && 1 in w.clients && w.clients[1] == Linked(0, 1)
    requires 2 in w.clients && w.clients[2] == Linked(0, 2) && ClientExits(0, w, w', 1, 1, gone)
    ensures 2 in w'.present && 1 !in w'.present && w'.clients == w.clients && 1 in w'.lists.exits
  {
    hide ListInv, CountInv, LocalInv, LifeInv, LeavesFirst, ExitMessages;
    UnderSelf(w.clients, w.depth, 1);
    assert !Under(w.clients, w.depth, 0, 1);
    assert !Under(w.clients, w.depth, 2, 1);
  }

  lemma BurstMembers(me: Id, w: World)
    requires Inv(me, w)
    ensures Distinct(w.global) && forall x :: x in w.global ==> x in w.clients
  {
    hide TreeInv, ListInv, CountInv, FromInv, LocalInv, LifeInv;
    forall x | x in w.global ensures x in w.clients {
      assert x in SetOf(w.global);
    }
  }
}
